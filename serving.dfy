/**
 * The prediction service: at start-up it loads the fitted pipeline and the
 * metadata record (from the working directory, or from its parent when a file
 * is not found there) and keeps the list of required features; every request
 * is checked against that list before the pipeline is called, and the
 * pipeline's answer is turned into a response.
 */
module Serving {
  import opened Wrappers
  import opened Table
  import Training

  // ---------------------------------------------------------------------------
  // The fitted pipeline and the artifacts
  // ---------------------------------------------------------------------------

  /** What the fitted pipeline does with one input row: a class label and the churn probability, or an exception. */
  datatype ModelOutcome = Scored(classLabel: int, churnProbability: real) | Raised(message: string)

  /** The fitted pipeline, opaque beyond what it answers for an input row. */
  type Classifier = Row -> ModelOutcome

  /** The outcome of reading one artifact file. */
  datatype Load<T> = Loaded(artifact: T) | FileNotFound | Failed(message: string)

  /** The metadata file as JSON: each key maps to a list of names. */
  type MetaFile = map<string, seq<string>>

  const FEATURE_NAMES_KEY: string := "feature_names"

  /** What the start-up leaves in the two globals the handler reads. */
  datatype Startup = Startup(model: Option<Classifier>, featureNames: seq<string>)

  /** `json.dump` of a metadata record. */
  function MetaJson(meta: Training.Metadata): (j: MetaFile)
    ensures j.Keys == {FEATURE_NAMES_KEY, "numeric", "categorical"}
    ensures j[FEATURE_NAMES_KEY] == meta.featureNames
    ensures j["numeric"] == meta.numeric && j["categorical"] == meta.categorical
  {
    map[FEATURE_NAMES_KEY := meta.featureNames, "numeric" := meta.numeric, "categorical" := meta.categorical]
  }

  /** `feature_names = meta['feature_names']`; a missing key is an exception, which empties the list. */
  function FeaturesOf(m: Classifier, meta: MetaFile): Startup
  {
    if FEATURE_NAMES_KEY in meta then Startup(Some(m), meta[FEATURE_NAMES_KEY]) else Startup(Some(m), [])
  }

  /** The first attempt ended in `FileNotFoundError`, which is what sends the loader to the parent directory. */
  predicate FirstAttemptNotFound(cwdModel: Load<Classifier>, cwdMeta: Load<MetaFile>)
  {
    cwdModel.FileNotFound? || (cwdModel.Loaded? && cwdMeta.FileNotFound?)
  }

  /**
   * The start-up state for the four possible file reads: the model and the
   * metadata from the working directory; after a `FileNotFoundError` there,
   * both again from the parent directory; any other failure, and any failure
   * in the parent directory, leaves the feature list empty. A read that is
   * never attempted does not influence the result.
   */
  function LoadStartup(cwdModel: Load<Classifier>, cwdMeta: Load<MetaFile>,
                       parentModel: Load<Classifier>, parentMeta: Load<MetaFile>): (s: Startup)
    ensures s.featureNames != [] ==> s.model.Some?
    ensures cwdModel.Failed? ==> s.model == None
    ensures cwdModel.Loaded? && !FirstAttemptNotFound(cwdModel, cwdMeta) ==> s.model == Some(cwdModel.artifact)
    ensures FirstAttemptNotFound(cwdModel, cwdMeta) && parentModel.Loaded? ==> s.model == Some(parentModel.artifact)
    ensures FirstAttemptNotFound(cwdModel, cwdMeta) && !parentModel.Loaded? ==>
      s.model == (if cwdModel.Loaded? then Some(cwdModel.artifact) else None)
    ensures cwdModel.Loaded? && cwdMeta.Loaded? ==>
      s.featureNames == (if FEATURE_NAMES_KEY in cwdMeta.artifact then cwdMeta.artifact[FEATURE_NAMES_KEY] else [])
    ensures cwdModel.Failed? || (cwdModel.Loaded? && cwdMeta.Failed?) ==> s.featureNames == []
    ensures FirstAttemptNotFound(cwdModel, cwdMeta) && !(parentModel.Loaded? && parentMeta.Loaded?) ==> s.featureNames == []
    ensures FirstAttemptNotFound(cwdModel, cwdMeta) && parentModel.Loaded? && parentMeta.Loaded? ==>
      s.featureNames == (if FEATURE_NAMES_KEY in parentMeta.artifact then parentMeta.artifact[FEATURE_NAMES_KEY] else [])
  {
    match cwdModel
    case Failed(_) => Startup(None, [])
    case FileNotFound => LoadFromParent(None, parentModel, parentMeta)
    case Loaded(m) =>
      match cwdMeta
      case Failed(_) => Startup(Some(m), [])
      case FileNotFound => LoadFromParent(Some(m), parentModel, parentMeta)
      case Loaded(meta) => FeaturesOf(m, meta)
  }

  /** The `except FileNotFoundError` branch: both artifacts from the parent directory. */
  function LoadFromParent(prior: Option<Classifier>, parentModel: Load<Classifier>, parentMeta: Load<MetaFile>): Startup
  {
    match parentModel
    case Loaded(m) =>
      (match parentMeta
       case Loaded(meta) => FeaturesOf(m, meta)
       case _ => Startup(Some(m), []))
    case _ => Startup(prior, [])
  }

  /** The parent directory is consulted only after a `FileNotFoundError` in the working directory. */
  lemma ParentOnlyAfterNotFound(cwdModel: Load<Classifier>, cwdMeta: Load<MetaFile>,
                                p1: Load<Classifier>, q1: Load<MetaFile>, p2: Load<Classifier>, q2: Load<MetaFile>)
    requires !FirstAttemptNotFound(cwdModel, cwdMeta)
    ensures LoadStartup(cwdModel, cwdMeta, p1, q1) == LoadStartup(cwdModel, cwdMeta, p2, q2)
  {
  }

  // ---------------------------------------------------------------------------
  // Responses
  // ---------------------------------------------------------------------------

  /** A JSON scalar in a response body. */
  datatype Json = Text(text: string) | Number(number: real)

  /** The `detail` of an HTTP error: a message, or the list of missing features. */
  datatype Detail = Message(text: string) | MissingFeatures(names: seq<string>)

  datatype Response = Success(body: map<string, Json>) | HttpError(status: int, detail: Detail)

  const NOT_LOADED: string := "Model not loaded"

  /** The probability above which the risk is `High`. */
  const HIGH_RISK: real := 0.7

  function RiskLevel(p: real): (level: string)
    ensures level == "High" <==> p > HIGH_RISK
    ensures level == "Low" <==> p <= HIGH_RISK
  {
    if p > HIGH_RISK then "High" else "Low"
  }

  function PredictionText(classLabel: int): (text: string)
    ensures text == "Churn" <==> classLabel == 1
    ensures text == "No Churn" <==> classLabel != 1
  {
    if classLabel == 1 then "Churn" else "No Churn"
  }

  /** The body returned for a scored row. */
  function SuccessBody(classLabel: int, p: real): (body: map<string, Json>)
    ensures body.Keys == {"prediction", "probability", "risk_level"}
    ensures body["prediction"] == Text("Churn") <==> classLabel == 1
    ensures body["prediction"] == Text("No Churn") <==> classLabel != 1
    ensures body["risk_level"] == Text("High") <==> p > HIGH_RISK
    ensures body["risk_level"] == Text("Low") <==> p <= HIGH_RISK
    ensures body["probability"] == Number(p)
  {
    map["prediction" := Text(PredictionText(classLabel)),
        "probability" := Number(p),
        "risk_level" := Text(RiskLevel(p))]
  }

  /**
   * The `/predict` handler for a request whose `features` dictionary is
   * `request`, given the loaded feature list and pipeline.
   */
  function Respond(featureNames: seq<string>, model: Option<Classifier>, request: Row): (r: Response)
    requires featureNames != [] ==> model.Some?
    ensures featureNames == [] ==> r == HttpError(500, Message(NOT_LOADED))
    ensures featureNames != [] && MissingNames(featureNames, request.Keys) != [] ==>
      r == HttpError(400, MissingFeatures(MissingNames(featureNames, request.Keys)))
    ensures r.HttpError? && r.status == 400 <==> featureNames != [] && exists f :: f in featureNames && f !in request
    ensures r.Success? <==> featureNames != [] && (forall f :: f in featureNames ==> f in request) && model.value(request).Scored?
    ensures r.Success? ==> r.body == SuccessBody(model.value(request).classLabel, model.value(request).churnProbability)
    ensures featureNames != [] && (forall f :: f in featureNames ==> f in request) && model.value(request).Raised? ==>
      r == HttpError(500, Message(model.value(request).message))
  {
    if featureNames == [] then HttpError(500, Message(NOT_LOADED))
    else
      var missing := MissingNames(featureNames, request.Keys);
      if missing != [] then HttpError(400, MissingFeatures(missing))
      else
        match model.value(request)
        case Raised(msg) => HttpError(500, Message(msg))
        case Scored(c, p) => Success(SuccessBody(c, p))
  }

  /** A request the handler rejects before scoring gets the same answer whatever the pipeline would do. */
  lemma RejectedRequestsNeverReachModel(featureNames: seq<string>, m1: Option<Classifier>, m2: Option<Classifier>, request: Row)
    requires featureNames != [] ==> m1.Some? && m2.Some?
    requires featureNames == [] || exists f :: f in featureNames && f !in request
    ensures Respond(featureNames, m1, request) == Respond(featureNames, m2, request)
    ensures Respond(featureNames, m1, request).HttpError?
  {
  }

  /**
   * A request that carries every required feature passes validation whatever
   * extra keys it has: its response is exactly what the pipeline says about it.
   */
  lemma CompleteRequestsPassValidation(featureNames: seq<string>, model: Option<Classifier>, request: Row)
    requires featureNames != [] && model.Some?
    requires forall f :: f in featureNames ==> f in request
    ensures Respond(featureNames, model, request) ==
      match model.value(request)
      case Scored(c, p) => Success(SuccessBody(c, p))
      case Raised(msg) => HttpError(500, Message(msg))
  {
  }

  // ---------------------------------------------------------------------------
  // The service state
  // ---------------------------------------------------------------------------

  /** The module globals `model` and `feature_names`, assigned once at start-up. */
  class ServingState {
    var model: Option<Classifier>
    var featureNames: seq<string>

    /** A non-empty feature list is only ever assigned after the pipeline was loaded. */
    ghost predicate Valid()
      reads this
    {
      featureNames != [] ==> model.Some?
    }

    /** The start-up `try` block, given the outcome of each file read it may attempt. */
    constructor Load(cwdModel: Load<Classifier>, cwdMeta: Load<MetaFile>,
                     parentModel: Load<Classifier>, parentMeta: Load<MetaFile>)
      ensures Valid()
      ensures model == LoadStartup(cwdModel, cwdMeta, parentModel, parentMeta).model
      ensures featureNames == LoadStartup(cwdModel, cwdMeta, parentModel, parentMeta).featureNames
    {
      var loadedModel: Option<Classifier> := None;
      var meta: Option<MetaFile> := None;
      var notFound := false;
      var failed := false;
      match cwdModel {
        case Loaded(m) =>
          loadedModel := Some(m);
          match cwdMeta {
            case Loaded(j) => meta := Some(j);
            case FileNotFound => notFound := true;
            case Failed(_) => failed := true;
          }
        case FileNotFound => notFound := true;
        case Failed(_) => failed := true;
      }
      if notFound {
        match parentModel {
          case Loaded(m) =>
            loadedModel := Some(m);
            match parentMeta {
              case Loaded(j) => meta := Some(j);
              case _ => failed := true;
            }
          case _ => failed := true;
        }
      }
      model := loadedModel;
      if !failed && meta.Some? && FEATURE_NAMES_KEY in meta.value {
        featureNames := meta.value[FEATURE_NAMES_KEY];
      } else {
        featureNames := [];
      }
    }

    /** The `/predict` handler; it reads the state and changes nothing. */
    method Predict(request: Row) returns (response: Response)
      requires Valid()
      ensures response == Respond(featureNames, model, request)
    {
      if featureNames == [] {
        return HttpError(500, Message(NOT_LOADED));
      }
      var missing := MissingNames(featureNames, request.Keys);
      if missing != [] {
        return HttpError(400, MissingFeatures(missing));
      }
      var outcome := model.value(request);
      match outcome {
        case Raised(msg) => response := HttpError(500, Message(msg));
        case Scored(c, p) => response := Success(SuccessBody(c, p));
      }
    }
  }

  // ---------------------------------------------------------------------------
  // Training and serving together
  // ---------------------------------------------------------------------------

  /** Every row of a well-formed table carries all of the table's columns. */
  lemma RowsCarryAllColumns(x: Frame, i: int)
    requires WellFormed(x) && 0 <= i < |x.rows|
    ensures MissingNames(x.columns, x.rows[i].Keys) == []
  {
    assert x.rows[i].Keys == set c | c in x.columns;
  }

  /**
   * A service started on the artifacts of a successful training run requires
   * exactly the trained features, is never in the degraded state, and accepts
   * every row of the training feature table.
   */
  lemma TrainedArtifactsServe(df: Frame, parse: string -> Option<Training.ParsedNumber>, categories: seq<Value>,
                              m: Classifier, parentModel: Load<Classifier>, parentMeta: Load<MetaFile>, i: int)
    requires WellFormed(df) && Training.Train(df, parse, categories).Ok?
    requires 0 <= i < |df.rows|
    ensures var t := Training.Train(df, parse, categories).value;
      var s := LoadStartup(Loaded(m), Loaded(MetaJson(t.meta)), parentModel, parentMeta);
      && s.featureNames == Training.SELECTED_FEATURES == t.features.columns
      && |t.features.rows| == |df.rows|
      && s.model == Some(m)
      && MissingNames(s.featureNames, t.features.rows[i].Keys) == []
  {
    var t := Training.Train(df, parse, categories).value;
    var x := t.features;
    assert WellFormed(x) && x.columns == Training.SELECTED_FEATURES && |x.rows| == |df.rows|;
    RowsCarryAllColumns(x, i);
  }
}
