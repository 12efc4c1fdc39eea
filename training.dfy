/**
 * The schema decisions of the training script: resolving the target column,
 * encoding the labels, checking and projecting the fixed feature list,
 * coercing `TotalCharges` to a number, splitting the features by dtype and
 * assembling the metadata record the serving side reads. Fitting the
 * classifier and writing the two artifacts are effects; `Train` returns what
 * would be fitted and written, or the error that stops the script first.
 */
module Training {
  import opened Wrappers
  import opened Table

  const TARGET_COLUMN: string := "Churn Value"
  const TOTAL_CHARGES: string := "TotalCharges"

  /** The features the model is trained on, in the order they are stored. */
  const SELECTED_FEATURES: seq<string> := ["tenure", "MonthlyCharges", TOTAL_CHARGES, "Contract", "PaymentMethod"]

  /** The dtypes `select_dtypes(include=['int64', 'float64'])` keeps. */
  const NUMERIC_KINDS: set<ColType> := {Int64, Float64}
  /** The dtypes `select_dtypes(include=['object', 'category'])` keeps. */
  const CATEGORICAL_KINDS: set<ColType> := {Object, Category}

  datatype TrainError =
    | TargetNotFound(name: string)
    | MissingFeatures(names: seq<string>)

  /** The record written as the metadata artifact. */
  datatype Metadata = Metadata(featureNames: seq<string>, numeric: seq<string>, categorical: seq<string>)

  /** What a successful run fits the classifier on and what it saves. */
  datatype Trained = Trained(features: Frame, labels: seq<int>, meta: Metadata)

  // ---------------------------------------------------------------------------
  // Target resolution
  // ---------------------------------------------------------------------------

  function LowerChar(c: char): char
  {
    if 'A' <= c <= 'Z' then (c as int + 32) as char else c
  }

  /** `str.lower()` restricted to ASCII letters. */
  function Lower(s: string): (r: string)
    ensures |r| == |s|
  {
    seq(|s|, i requires 0 <= i < |s| => LowerChar(s[i]))
  }

  /** Column `j` is the last column of `cols` whose lowercase is `k`. */
  ghost predicate IsLastMatch(cols: seq<string>, k: string, j: int)
  {
    && 0 <= j < |cols|
    && Lower(cols[j]) == k
    && forall i :: j < i < |cols| ==> Lower(cols[i]) != k
  }

  /**
   * The dictionary `{c.lower(): c for c in cols}`: a later column with the same
   * lowercase overwrites an earlier one.
   */
  function LowerIndex(cols: seq<string>): (m: map<string, string>)
    ensures m.Keys == set c | c in cols :: Lower(c)
    ensures forall k :: k in m ==> exists j :: IsLastMatch(cols, k, j) && m[k] == cols[j]
  {
    if cols == [] then map[]
    else
      var init, last := cols[..|cols| - 1], cols[|cols| - 1];
      var m0 := LowerIndex(init);
      assert cols == init + [last];
      assert forall k, j :: k != Lower(last) && IsLastMatch(init, k, j) ==> IsLastMatch(cols, k, j);
      assert IsLastMatch(cols, Lower(last), |cols| - 1);
      m0[Lower(last) := last]
  }

  /**
   * The target column actually used: `target` itself when it is a column,
   * otherwise the last column equal to it up to case, otherwise an error that
   * names the configured target.
   */
  function ResolveTarget(cols: seq<string>, target: string): (r: Result<string, TrainError>)
    ensures target in cols ==> r == Ok(target)
    ensures r.Ok? ==> r.value in cols && Lower(r.value) == Lower(target)
    ensures target !in cols ==> (r.Ok? <==> exists c :: c in cols && Lower(c) == Lower(target))
    ensures r.Ok? && target !in cols ==> exists j :: IsLastMatch(cols, Lower(target), j) && r.value == cols[j]
    ensures r.Err? ==> r.error == TargetNotFound(target)
  {
    if target in cols then Ok(target)
    else
      var index := LowerIndex(cols);
      if Lower(target) in index then Ok(index[Lower(target)])
      else Err(TargetNotFound(target))
  }

  /** The resolved target never is one of the selected features: no feature is `Churn Value` up to case. */
  lemma TargetIsNoFeature(cols: seq<string>, t: string)
    requires ResolveTarget(cols, TARGET_COLUMN) == Ok(t)
    ensures t !in SELECTED_FEATURES
  {
    assert |Lower(t)| == |Lower(TARGET_COLUMN)| == 11;
    assert forall f :: f in SELECTED_FEATURES ==> |f| != 11;
  }

  // ---------------------------------------------------------------------------
  // Label encoding
  // ---------------------------------------------------------------------------

  /** The mapping `{'Yes': 1, 'No': 0}`; every other value maps to NaN. */
  function YesNo(v: Value): Option<int>
  {
    if v == Str("Yes") then Some(1) else if v == Str("No") then Some(0) else None
  }

  predicate AllYesNo(col: seq<Value>)
  {
    forall i :: 0 <= i < |col| ==> YesNo(col[i]).Some?
  }

  /**
   * The categorical code of `v`: its position among the column's categories,
   * -1 for a missing value. The order of `categories` is the library's choice.
   */
  function CategoryCode(categories: seq<Value>, v: Value): int
  {
    if v.Missing? then -1 else IndexOf(categories, v)
  }

  /** `categories` lists every non-missing value of `col` (the library's category list). */
  predicate CoversValues(categories: seq<Value>, col: seq<Value>)
  {
    forall i :: 0 <= i < |col| && !col[i].Missing? ==> col[i] in categories
  }

  /**
   * The labels: 1 for `Yes` and 0 for `No` when every value is one of the two,
   * otherwise the categorical codes of all values.
   */
  function EncodeLabels(col: seq<Value>, categories: seq<Value>): (y: seq<int>)
    ensures |y| == |col|
    ensures AllYesNo(col) ==> forall i :: 0 <= i < |col| ==>
      && (col[i] == Str("Yes") ==> y[i] == 1)
      && (col[i] == Str("No") ==> y[i] == 0)
    ensures !AllYesNo(col) ==> forall i :: 0 <= i < |col| ==> y[i] == CategoryCode(categories, col[i])
  {
    if AllYesNo(col) then seq(|col|, i requires 0 <= i < |col| => YesNo(col[i]).value)
    else seq(|col|, i requires 0 <= i < |col| => CategoryCode(categories, col[i]))
  }

  /**
   * The fallback codes identify values: equal values get equal codes, distinct
   * present values get distinct codes in `0 .. |categories|`, missing values -1.
   */
  lemma FallbackCodesInjective(col: seq<Value>, categories: seq<Value>, i: int, j: int)
    requires !AllYesNo(col) && CoversValues(categories, col)
    requires 0 <= i < |col| && 0 <= j < |col|
    ensures col[i] == col[j] ==> EncodeLabels(col, categories)[i] == EncodeLabels(col, categories)[j]
    ensures !col[i].Missing? && col[i] != col[j] ==> EncodeLabels(col, categories)[i] != EncodeLabels(col, categories)[j]
    ensures !col[i].Missing? ==> 0 <= EncodeLabels(col, categories)[i] < |categories|
    ensures col[i].Missing? ==> EncodeLabels(col, categories)[i] == -1
  {
    var y := EncodeLabels(col, categories);
    if !col[i].Missing? && col[i] != col[j] && !col[j].Missing? {
      assert categories[y[i]] == col[i] && categories[y[j]] == col[j];
    }
  }

  // ---------------------------------------------------------------------------
  // Feature selection and typing
  // ---------------------------------------------------------------------------

  /** `df[features]`: the frame restricted to `features`, in that order. */
  function Project(df: Frame, features: seq<string>): (x: Frame)
    requires WellFormed(df) && Distinct(features)
    requires forall c :: c in features ==> c in df.columns
    ensures WellFormed(x)
    ensures x.columns == features && |x.rows| == |df.rows|
    ensures forall c :: c in features ==> x.dtypes[c] == df.dtypes[c]
    ensures forall i, c :: 0 <= i < |x.rows| && c in features ==> x.rows[i][c] == df.rows[i][c]
  {
    Frame(features,
          map c | c in features :: df.dtypes[c],
          seq(|df.rows|, i requires 0 <= i < |df.rows| => map c | c in features :: df.rows[i][c]))
  }

  /** The projection depends on the dataset's columns as a set, not on their order. */
  lemma ProjectIgnoresColumnOrder(df1: Frame, df2: Frame, features: seq<string>)
    requires WellFormed(df1) && WellFormed(df2) && Distinct(features)
    requires forall c :: c in features ==> c in df1.columns
    requires forall c :: c in df1.columns <==> c in df2.columns
    requires df1.dtypes == df2.dtypes && df1.rows == df2.rows
    ensures forall c :: c in features ==> c in df2.columns
    ensures Project(df1, features) == Project(df2, features)
  {
  }

  /** A number as `pd.to_numeric` parses it from a string. */
  datatype ParsedNumber = IntNumber(n: int) | RealNumber(x: real)
  {
    /** The numeric value, whichever the representation. */
    function AsReal(): real
    {
      match this
      case IntNumber(n) => n as real
      case RealNumber(x) => x
    }
  }

  /** The number a numeric cell holds; `None` for a missing value or a string. */
  function NumberOf(v: Value): Option<real>
  {
    match v
    case Int(i) => Some(i as real)
    case Float(x) => Some(x)
    case _ => None
  }

  /**
   * `pd.to_numeric(errors='coerce')` on one cell; `parse` is the string parser,
   * `None` when it fails. A parsed string becomes the number read from it (an
   * integer stays an integer), an unparsable one becomes missing, and a cell
   * that is not a string is kept.
   */
  function CoerceValue(v: Value, parse: string -> Option<ParsedNumber>): (r: Value)
    ensures r.Int? || r.Float? || r.Missing?
    ensures !v.Str? ==> r == v
    ensures v.Str? ==> (r == Missing <==> parse(v.s).None?)
    ensures v.Str? && parse(v.s).Some? ==>
      && NumberOf(r) == Some(parse(v.s).value.AsReal())
      && (r.Int? <==> parse(v.s).value.IntNumber?)
  {
    match v
    case Str(s) =>
      (match parse(s)
       case Some(IntNumber(n)) => Int(n)
       case Some(RealNumber(x)) => Float(x)
       case None => Missing)
    case _ => v
  }

  /** The number `pd.to_numeric` reads from a cell, `None` where it yields NaN. */
  function ReadNumber(v: Value, parse: string -> Option<ParsedNumber>): Option<real>
  {
    NumberOf(CoerceValue(v, parse))
  }

  /** The dtype of a coerced column: int64 when every cell is an integer, float64 otherwise. */
  function NumericDtype(vs: seq<Value>): ColType
  {
    if forall i :: 0 <= i < |vs| ==> vs[i].Int? then Int64 else Float64
  }

  /** A coerced cell stored in a column of dtype `t` (integers become floats in a float64 column). */
  function AsDtype(v: Value, t: ColType): Value
  {
    if t == Float64 && v.Int? then Float(v.i as real) else v
  }

  /**
   * An object-dtype `TotalCharges` column is replaced by its numeric coercion;
   * any other dtype leaves the frame unchanged.
   */
  function CoerceTotalCharges(x: Frame, parse: string -> Option<ParsedNumber>): (r: Frame)
    requires WellFormed(x) && TOTAL_CHARGES in x.columns
    ensures WellFormed(r)
    ensures r.columns == x.columns && |r.rows| == |x.rows|
    ensures x.dtypes[TOTAL_CHARGES] != Object ==> r == x
    ensures x.dtypes[TOTAL_CHARGES] == Object ==> r.dtypes[TOTAL_CHARGES] in NUMERIC_KINDS
    ensures forall c :: c in x.columns && c != TOTAL_CHARGES ==> r.dtypes[c] == x.dtypes[c]
    ensures forall i, c :: 0 <= i < |x.rows| && c in x.columns && c != TOTAL_CHARGES ==> r.rows[i][c] == x.rows[i][c]
    ensures x.dtypes[TOTAL_CHARGES] == Object ==> forall i :: 0 <= i < |x.rows| ==>
      && NumberOf(r.rows[i][TOTAL_CHARGES]) == ReadNumber(x.rows[i][TOTAL_CHARGES], parse)
      && (r.rows[i][TOTAL_CHARGES] == Missing <==> ReadNumber(x.rows[i][TOTAL_CHARGES], parse).None?)
  {
    if x.dtypes[TOTAL_CHARGES] != Object then x
    else
      var coerced := seq(|x.rows|, i requires 0 <= i < |x.rows| => CoerceValue(x.rows[i][TOTAL_CHARGES], parse));
      var t := NumericDtype(coerced);
      var rows := seq(|x.rows|, i requires 0 <= i < |x.rows| => x.rows[i][TOTAL_CHARGES := AsDtype(coerced[i], t)]);
      var r := Frame(x.columns, x.dtypes[TOTAL_CHARGES := t], rows);
      assert forall i :: 0 <= i < |rows| ==> Fits(rows[i][TOTAL_CHARGES], t);
      r
  }

  /** `X.select_dtypes(include=kinds).columns.tolist()`. */
  function SelectDtypes(x: Frame, kinds: set<ColType>): (r: seq<string>)
    requires WellFormed(x)
    ensures IsSubsequence(r, x.columns)
    ensures forall c :: c in r <==> c in x.columns && x.dtypes[c] in kinds
  {
    Filter(x.columns, c => c in x.dtypes && x.dtypes[c] in kinds)
  }

  /** A dtype that neither list keeps (bool, datetime, ...) leaves its feature out of both lists. */
  lemma PartitionCoversIff(x: Frame)
    requires WellFormed(x)
    ensures (forall c :: c in x.columns ==> c in SelectDtypes(x, NUMERIC_KINDS) || c in SelectDtypes(x, CATEGORICAL_KINDS))
        <==> (forall c :: c in x.columns ==> x.dtypes[c] != Other)
  {
  }

  // ---------------------------------------------------------------------------
  // The training run
  // ---------------------------------------------------------------------------

  function ColumnSet(f: Frame): set<string>
  {
    set c | c in f.columns
  }

  /** The five selected features are five different names. */
  lemma SelectedFeaturesDistinct()
    ensures Distinct(SELECTED_FEATURES)
  {
  }

  /**
   * `X = df[SELECTED_FEATURES].copy()` followed by the `TotalCharges`
   * coercion: the feature table passed to `fit`.
   */
  function FeatureTable(df: Frame, parse: string -> Option<ParsedNumber>): (x: Frame)
    requires WellFormed(df) && forall f :: f in SELECTED_FEATURES ==> f in df.columns
    ensures WellFormed(x)
    ensures x.columns == SELECTED_FEATURES && |x.rows| == |df.rows|
    ensures df.dtypes[TOTAL_CHARGES] in {Object, Int64, Float64} ==> x.dtypes[TOTAL_CHARGES] in NUMERIC_KINDS
    ensures forall c :: c in SELECTED_FEATURES && c != TOTAL_CHARGES ==> x.dtypes[c] == df.dtypes[c]
    ensures forall i, c :: 0 <= i < |df.rows| && c in SELECTED_FEATURES && c != TOTAL_CHARGES ==>
      x.rows[i][c] == df.rows[i][c]
    ensures df.dtypes[TOTAL_CHARGES] != Object ==>
      && x.dtypes[TOTAL_CHARGES] == df.dtypes[TOTAL_CHARGES]
      && forall i :: 0 <= i < |df.rows| ==> x.rows[i][TOTAL_CHARGES] == df.rows[i][TOTAL_CHARGES]
    ensures df.dtypes[TOTAL_CHARGES] == Object ==> forall i :: 0 <= i < |df.rows| ==>
      && NumberOf(x.rows[i][TOTAL_CHARGES]) == ReadNumber(df.rows[i][TOTAL_CHARGES], parse)
      && (x.rows[i][TOTAL_CHARGES] == Missing <==> ReadNumber(df.rows[i][TOTAL_CHARGES], parse).None?)
  {
    SelectedFeaturesDistinct();
    CoerceTotalCharges(Project(df, SELECTED_FEATURES), parse)
  }

  /**
   * The metadata record: the feature table's columns and their split into
   * numeric and categorical names, each in column order and never both.
   */
  function MetadataOf(x: Frame): (m: Metadata)
    requires WellFormed(x)
    ensures m.featureNames == x.columns
    ensures IsSubsequence(m.numeric, m.featureNames) && IsSubsequence(m.categorical, m.featureNames)
    ensures forall c :: c in m.numeric ==> c !in m.categorical
    ensures forall c :: c in m.numeric <==> c in x.columns && x.dtypes[c] in NUMERIC_KINDS
    ensures forall c :: c in m.categorical <==> c in x.columns && x.dtypes[c] in CATEGORICAL_KINDS
  {
    Metadata(x.columns, SelectDtypes(x, NUMERIC_KINDS), SelectDtypes(x, CATEGORICAL_KINDS))
  }

  /**
   * One run of the script on dataset `df` up to the point where the classifier
   * is fitted and the two artifacts are written: `Ok` carries the feature
   * table and labels passed to `fit` and the metadata record; `Err` is the
   * exception that stops the script before `fit` and before any file is
   * written. `parse` is the string-to-number parser of `pd.to_numeric` and
   * `categories` the category list pandas builds for the target column.
   */
  function Train(df: Frame, parse: string -> Option<ParsedNumber>, categories: seq<Value>): (r: Result<Trained, TrainError>)
    requires WellFormed(df)
    ensures ResolveTarget(df.columns, TARGET_COLUMN).Err? ==> r == Err(TargetNotFound(TARGET_COLUMN))
    ensures ResolveTarget(df.columns, TARGET_COLUMN).Ok? && MissingNames(SELECTED_FEATURES, ColumnSet(df)) != [] ==>
      r == Err(MissingFeatures(MissingNames(SELECTED_FEATURES, ColumnSet(df))))
    ensures r.Ok? <==> ResolveTarget(df.columns, TARGET_COLUMN).Ok? && forall f :: f in SELECTED_FEATURES ==> f in df.columns
    ensures r.Ok? ==>
      && r.value.features == FeatureTable(df, parse)
      && r.value.meta == MetadataOf(r.value.features)
      && r.value.meta.featureNames == SELECTED_FEATURES
      && |r.value.labels| == |df.rows|
      && r.value.labels == EncodeLabels(ColumnValues(df, ResolveTarget(df.columns, TARGET_COLUMN).value), categories)
      && ResolveTarget(df.columns, TARGET_COLUMN).value !in r.value.meta.featureNames
  {
    match ResolveTarget(df.columns, TARGET_COLUMN)
    case Err(e) => Err(e)
    case Ok(target) =>
      var y := EncodeLabels(ColumnValues(df, target), categories);
      var missing := MissingNames(SELECTED_FEATURES, ColumnSet(df));
      if missing != [] then Err(MissingFeatures(missing))
      else
        var x := FeatureTable(df, parse);
        TargetIsNoFeature(df.columns, target);
        Ok(Trained(x, y, MetadataOf(x)))
  }

  // ---------------------------------------------------------------------------
  // The synthetic dataset used when no CSV file exists
  // ---------------------------------------------------------------------------

  const SYNTHETIC_ROWS: nat := 100
  const CONTRACTS: seq<string> := ["Month-to-month", "One year", "Two year"]
  const PAYMENT_METHODS: seq<string> := ["Electronic check", "Mailed check", "Bank transfer"]
  const ANSWERS: seq<string> := ["Yes", "No"]

  /** The random draws for one synthetic row; list entries are chosen by index. */
  datatype Draw = Draw(tenure: int, monthly: real, total: real, contract: nat, payment: nat, answer: nat)

  /** The ranges of the generators: `randint(1, 72)` excludes 72, `uniform(a, b)` excludes `b`. */
  predicate ValidDraw(d: Draw)
  {
    && 1 <= d.tenure < 72
    && 20.0 <= d.monthly < 120.0
    && 20.0 <= d.total < 5000.0
    && d.contract < |CONTRACTS| && d.payment < |PAYMENT_METHODS| && d.answer < |ANSWERS|
  }

  function SyntheticDtypes(answerColumn: string): map<string, ColType>
  {
    map["tenure" := Int64, "MonthlyCharges" := Float64, TOTAL_CHARGES := Float64,
        "Contract" := Object, "PaymentMethod" := Object, answerColumn := Object]
  }

  /**
   * The values the generators can produce: tenure from 1 to 71, the charges in
   * their half-open ranges, and a contract and a payment method from their lists.
   */
  predicate InGeneratorRanges(row: Row)
  {
    && "tenure" in row && row["tenure"].Int? && 1 <= row["tenure"].i < 72
    && "MonthlyCharges" in row && row["MonthlyCharges"].Float? && 20.0 <= row["MonthlyCharges"].x < 120.0
    && TOTAL_CHARGES in row && row[TOTAL_CHARGES].Float? && 20.0 <= row[TOTAL_CHARGES].x < 5000.0
    && "Contract" in row && row["Contract"].Str? && row["Contract"].s in CONTRACTS
    && "PaymentMethod" in row && row["PaymentMethod"].Str? && row["PaymentMethod"].s in PAYMENT_METHODS
  }

  /** One generated row: a value for each of the six columns, of that column's dtype. */
  function SyntheticRow(d: Draw, answerColumn: string): (row: Row)
    requires ValidDraw(d) && answerColumn !in SELECTED_FEATURES
    ensures row.Keys == set c | c in SELECTED_FEATURES + [answerColumn]
    ensures forall c :: c in row ==> Fits(row[c], SyntheticDtypes(answerColumn)[c])
    ensures row[answerColumn] in {Str("Yes"), Str("No")}
    ensures InGeneratorRanges(row)
  {
    var row := map["tenure" := Int(d.tenure), "MonthlyCharges" := Float(d.monthly), TOTAL_CHARGES := Float(d.total),
        "Contract" := Str(CONTRACTS[d.contract]), "PaymentMethod" := Str(PAYMENT_METHODS[d.payment]),
        answerColumn := Str(ANSWERS[d.answer])];
    var keys := {"tenure", "MonthlyCharges", TOTAL_CHARGES, "Contract", "PaymentMethod", answerColumn};
    assert (set c | c in SELECTED_FEATURES + [answerColumn]) == keys;
    assert row.Keys == keys;
    var dtypes := SyntheticDtypes(answerColumn);
    assert forall c :: c in keys ==> Fits(row[c], dtypes[c]);
    row
  }

  /**
   * The fallback dataframe: 100 generated rows over the five features and an
   * answer column called `answerColumn` holding `Yes` or `No`.
   */
  function SyntheticFrameLabelled(draws: seq<Draw>, answerColumn: string): (f: Frame)
    requires |draws| == SYNTHETIC_ROWS && forall i :: 0 <= i < |draws| ==> ValidDraw(draws[i])
    requires answerColumn !in SELECTED_FEATURES
    ensures WellFormed(f) && |f.rows| == SYNTHETIC_ROWS
    ensures f.columns == SELECTED_FEATURES + [answerColumn]
    ensures f.dtypes == SyntheticDtypes(answerColumn)
    ensures forall i :: 0 <= i < |f.rows| ==> f.rows[i][answerColumn] in {Str("Yes"), Str("No")}
    ensures forall i :: 0 <= i < |f.rows| ==> InGeneratorRanges(f.rows[i])
  {
    SelectedFeaturesDistinct();
    var rows := seq(|draws|, i requires 0 <= i < |draws| => SyntheticRow(draws[i], answerColumn));
    Frame(SELECTED_FEATURES + [answerColumn], SyntheticDtypes(answerColumn), rows)
  }

  /** The fallback dataframe as the script builds it: its answer column is called `Churn`. */
  function SyntheticFrame(draws: seq<Draw>): (f: Frame)
    requires |draws| == SYNTHETIC_ROWS && forall i :: 0 <= i < |draws| ==> ValidDraw(draws[i])
    ensures WellFormed(f) && |f.rows| == SYNTHETIC_ROWS
    ensures f.columns == ["tenure", "MonthlyCharges", TOTAL_CHARGES, "Contract", "PaymentMethod", "Churn"]
  {
    SyntheticFrameLabelled(draws, "Churn")
  }

  /**
   * Training on the fallback dataframe always stops at target resolution:
   * no column is `Churn Value` up to case, so the fallback never produces a model.
   */
  lemma SyntheticTrainingFails(draws: seq<Draw>, parse: string -> Option<ParsedNumber>, categories: seq<Value>)
    requires |draws| == SYNTHETIC_ROWS && forall i :: 0 <= i < |draws| ==> ValidDraw(draws[i])
    ensures Train(SyntheticFrame(draws), parse, categories) == Err(TargetNotFound(TARGET_COLUMN))
  {
    var cols := SyntheticFrame(draws).columns;
    forall c | c in cols ensures Lower(c) != Lower(TARGET_COLUMN) {
      assert |c| != 11;
    }
  }

  /** The fallback dataframe with its answer column named after the configured target. */
  function SyntheticFrameCorrected(draws: seq<Draw>): (f: Frame)
    requires |draws| == SYNTHETIC_ROWS && forall i :: 0 <= i < |draws| ==> ValidDraw(draws[i])
    ensures WellFormed(f) && |f.rows| == SYNTHETIC_ROWS
    ensures f.columns == SELECTED_FEATURES + [TARGET_COLUMN]
    ensures f.dtypes == SyntheticDtypes(TARGET_COLUMN)
    ensures forall i :: 0 <= i < |f.rows| ==> f.rows[i][TARGET_COLUMN] in {Str("Yes"), Str("No")}
  {
    SyntheticFrameLabelled(draws, TARGET_COLUMN)
  }

  /**
   * The corrected fallback dataframe passes the schema checks and reaches `fit`: the label is 1
   * exactly for `Yes`, `tenure`, `MonthlyCharges` and `TotalCharges` are the
   * numeric features and `Contract` and `PaymentMethod` the categorical ones.
   */
  lemma SyntheticCorrectedTrains(draws: seq<Draw>, parse: string -> Option<ParsedNumber>, categories: seq<Value>)
    requires |draws| == SYNTHETIC_ROWS && forall i :: 0 <= i < |draws| ==> ValidDraw(draws[i])
    ensures var r := Train(SyntheticFrameCorrected(draws), parse, categories);
      && r.Ok?
      && r.value.meta.featureNames == SELECTED_FEATURES
      && (forall c :: c in r.value.meta.numeric <==> c in ["tenure", "MonthlyCharges", TOTAL_CHARGES])
      && (forall c :: c in r.value.meta.categorical <==> c in ["Contract", "PaymentMethod"])
      && |r.value.labels| == SYNTHETIC_ROWS
      && forall i :: 0 <= i < SYNTHETIC_ROWS ==>
           (r.value.labels[i] == 1 <==> SyntheticFrameCorrected(draws).rows[i][TARGET_COLUMN] == Str("Yes"))
  {
    var df := SyntheticFrameCorrected(draws);
    assert TARGET_COLUMN in df.columns;
    assert forall f :: f in SELECTED_FEATURES ==> f in df.columns;
    SyntheticLabels(draws, categories);
    SyntheticFeatureDtypes(draws, parse);
  }

  lemma SyntheticLabels(draws: seq<Draw>, categories: seq<Value>)
    requires |draws| == SYNTHETIC_ROWS && forall i :: 0 <= i < |draws| ==> ValidDraw(draws[i])
    ensures var df := SyntheticFrameCorrected(draws);
      TARGET_COLUMN in df.columns &&
      var y := EncodeLabels(ColumnValues(df, TARGET_COLUMN), categories);
      |y| == SYNTHETIC_ROWS &&
      forall i :: 0 <= i < SYNTHETIC_ROWS ==> (y[i] == 1 <==> df.rows[i][TARGET_COLUMN] == Str("Yes"))
  {
    var df := SyntheticFrameCorrected(draws);
    assert TARGET_COLUMN in df.columns;
    var col := ColumnValues(df, TARGET_COLUMN);
    assert AllYesNo(col);
  }

  lemma SyntheticFeatureDtypes(draws: seq<Draw>, parse: string -> Option<ParsedNumber>)
    requires |draws| == SYNTHETIC_ROWS && forall i :: 0 <= i < |draws| ==> ValidDraw(draws[i])
    ensures var df := SyntheticFrameCorrected(draws);
      (forall f :: f in SELECTED_FEATURES ==> f in df.columns) &&
      var m := MetadataOf(FeatureTable(df, parse));
      && (forall c :: c in m.numeric <==> c in ["tenure", "MonthlyCharges", TOTAL_CHARGES])
      && (forall c :: c in m.categorical <==> c in ["Contract", "PaymentMethod"])
  {
    var df := SyntheticFrameCorrected(draws);
    assert forall f :: f in SELECTED_FEATURES ==> f in df.columns;
    var d := SyntheticDtypes(TARGET_COLUMN);
    assert d["tenure"] == Int64 && d["MonthlyCharges"] == Float64 && d[TOTAL_CHARGES] == Float64;
    assert d["Contract"] == Object && d["PaymentMethod"] == Object;
    FallbackDtypesSplit(df, parse);
  }

  /** A dataset with the fallback's dtypes yields three numeric and two categorical features. */
  lemma FallbackDtypesSplit(df: Frame, parse: string -> Option<ParsedNumber>)
    requires WellFormed(df) && forall f :: f in SELECTED_FEATURES ==> f in df.columns
    requires df.dtypes["tenure"] == Int64 && df.dtypes["MonthlyCharges"] == Float64 && df.dtypes[TOTAL_CHARGES] == Float64
    requires df.dtypes["Contract"] == Object && df.dtypes["PaymentMethod"] == Object
    ensures var m := MetadataOf(FeatureTable(df, parse));
      && (forall c :: c in m.numeric <==> c in ["tenure", "MonthlyCharges", TOTAL_CHARGES])
      && (forall c :: c in m.categorical <==> c in ["Contract", "PaymentMethod"])
  {
    FeatureTableKeepsNumericDtypes(df, parse);
    var x := FeatureTable(df, parse);
    assert x.dtypes["tenure"] == Int64 && x.dtypes["MonthlyCharges"] == Float64 && x.dtypes[TOTAL_CHARGES] == Float64;
    assert x.dtypes["Contract"] == Object && x.dtypes["PaymentMethod"] == Object;
    TelcoSplit(x);
  }

  /** A dataset whose `TotalCharges` is already float64 keeps every feature's dtype in the feature table. */
  lemma FeatureTableKeepsNumericDtypes(df: Frame, parse: string -> Option<ParsedNumber>)
    requires WellFormed(df) && forall f :: f in SELECTED_FEATURES ==> f in df.columns
    requires df.dtypes[TOTAL_CHARGES] == Float64
    ensures forall c :: c in SELECTED_FEATURES ==> FeatureTable(df, parse).dtypes[c] == df.dtypes[c]
    ensures WellFormed(FeatureTable(df, parse)) && FeatureTable(df, parse).columns == SELECTED_FEATURES
  {
  }

  /** A feature table with the fallback's dtypes has three numeric and two categorical features. */
  lemma TelcoSplit(x: Frame)
    requires WellFormed(x) && x.columns == SELECTED_FEATURES
    requires x.dtypes["tenure"] == Int64 && x.dtypes["MonthlyCharges"] == Float64
    requires x.dtypes["Contract"] == Object && x.dtypes["PaymentMethod"] == Object
    requires x.dtypes[TOTAL_CHARGES] in NUMERIC_KINDS
    ensures var m := MetadataOf(x);
      && (forall c :: c in m.numeric <==> c in ["tenure", "MonthlyCharges", TOTAL_CHARGES])
      && (forall c :: c in m.categorical <==> c in ["Contract", "PaymentMethod"])
  {
  }

  /**
   * The case-insensitive fallback is an exact match, not a substring search:
   * `ChurnFlag` does not stand in for a configured `Churn`.
   */
  lemma ResolveIsNoSubstringSearch()
    ensures ResolveTarget(["ChurnFlag"], "Churn") == Err(TargetNotFound("Churn"))
  {
    assert |Lower("ChurnFlag")| != |Lower("Churn")|;
  }

  /** Among columns equal up to case, the last one wins. */
  lemma ResolveTakesLastCaseMatch()
    ensures ResolveTarget(["churn value", "CHURN VALUE", "tenure"], TARGET_COLUMN) == Ok("CHURN VALUE")
  {
    var cols := ["churn value", "CHURN VALUE", "tenure"];
    assert Lower("churn value") == Lower(TARGET_COLUMN) == Lower("CHURN VALUE");
    assert Lower("tenure") != Lower(TARGET_COLUMN);
    var j :| IsLastMatch(cols, Lower(TARGET_COLUMN), j) && ResolveTarget(cols, TARGET_COLUMN).value == cols[j];
    if j == 0 {
      assert Lower(cols[1]) == Lower(TARGET_COLUMN);
    } else if j == 2 {
      assert Lower(cols[2]) != Lower(TARGET_COLUMN);
    }
  }
}
