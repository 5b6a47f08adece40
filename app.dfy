/**
 * The serving side: BMI, the one-row feature frame, the encoder loop, the classifier
 * call and label decoding, the rule-table lookup, the stored prediction record and the
 * per-user history. The trained artifacts, the authenticated user's id, the clock and
 * `round(bmi, 2)` are parameters.
 */
module App {
  import opened Wrappers
  import opened Frames
  import opened LabelEncoding
  import opened NutritionRules

  /** A creation time, e.g. microseconds since the epoch. */
  type Timestamp = int

  /** The request body of /predict. */
  datatype ChildInput = ChildInput(age: int, gender: string, heightCm: real, weightKg: real, activityLevel: string)

  /** A stored row of the predictions table (its database-assigned id left out). */
  datatype Prediction = Prediction(
    userId: int,
    age: int, gender: string, heightCm: real, weightKg: real, activityLevel: string,
    bmi: real, calorieLevel: string,
    createdAt: Timestamp)

  /** The body /predict returns; a level with no plan gives `null` as recommendation. */
  datatype Response = Response(bmi: real, calorieLevel: string, nutritionRecommendation: Option<Plan>)

  /** One entry of the /history list. */
  datatype HistoryEntry = HistoryEntry(bmi: real, calorieLevel: string, date: Timestamp)

  /** Every way a /predict request ends without a response. */
  datatype Error =
    | DivisionByZero                                   // height_cm == 0 in calculate_bmi
    | MissingColumn(column: string)                    // input_df[col] for an encoder with no such column
    | UnknownCategory(column: string, value: Cell)     // encoder.transform on an unseen value
    | UnseenLabel(code: int)                           // target_encoder.inverse_transform on a code it never issued

  /** The encoders loaded at start-up, by column name. */
  type Encoders = map<string, Classes>

  /** The three artifacts: the classifier, the feature encoders and the target encoder. */
  datatype Artifacts = Artifacts(model: seq<Column> -> int, featureEncoders: Encoders, targetEncoder: Classes)

  /** The column order of the feature frame. */
  const FeatureColumns: seq<string> := ["Age", "Gender", "Height_cm", "Weight_kg", "BMI", "Activity_Level"]

  // ---------------- BMI ----------------

  /** `calculate_bmi`: weight over height in metres squared; only a zero height fails (by division). */
  function CalculateBmi(weightKg: real, heightCm: real): (bmi: real)
    requires heightCm != 0.0
    ensures bmi * ((heightCm / 100.0) * (heightCm / 100.0)) == weightKg
    ensures weightKg > 0.0 ==> bmi > 0.0
  {
    var heightM := heightCm / 100.0;
    weightKg / (heightM * heightM)
  }

  /** A 20 kg child 100 cm tall has a BMI of exactly 20. */
  lemma BmiExample()
    ensures CalculateBmi(20.0, 100.0) == 20.0
  {
  }

  /** There is no positivity guard: a negative height gives the same BMI as its absolute value. */
  lemma BmiIgnoresHeightSign(weightKg: real, heightCm: real)
    requires heightCm != 0.0
    ensures CalculateBmi(weightKg, -heightCm) == CalculateBmi(weightKg, heightCm)
  {
  }

  // ---------------- Feature frame ----------------

  /** The one-row `input_df` built from the request and the computed BMI. */
  function InputFrame(data: ChildInput, bmi: real): (row: seq<Column>)
    ensures Names(row) == FeatureColumns
    ensures DistinctNames(row)
    ensures Lookup(row, "Age") == Some(IntVal(data.age))
    ensures Lookup(row, "Gender") == Some(StrVal(data.gender))
    ensures Lookup(row, "Height_cm") == Some(RealVal(data.heightCm))
    ensures Lookup(row, "Weight_kg") == Some(RealVal(data.weightKg))
    ensures Lookup(row, "BMI") == Some(RealVal(bmi))
    ensures Lookup(row, "Activity_Level") == Some(StrVal(data.activityLevel))
  {
    var row :=
      [ Column("Age", IntVal(data.age)),
        Column("Gender", StrVal(data.gender)),
        Column("Height_cm", RealVal(data.heightCm)),
        Column("Weight_kg", RealVal(data.weightKg)),
        Column("BMI", RealVal(bmi)),
        Column("Activity_Level", StrVal(data.activityLevel)) ];
    assert Names(row) == FeatureColumns;
    LookupAt(row, 0); LookupAt(row, 1); LookupAt(row, 2);
    LookupAt(row, 3); LookupAt(row, 4); LookupAt(row, 5);
    row
  }

  // ---------------- Encoding ----------------

  /** The encoder for a column can transform that column's cell. */
  predicate Encodable(row: seq<Column>, column: string, classes: Classes)
  {
    match FindColumn(row, column)
    case None => false
    case Some(i) => Transform(classes, row[i].value).Some?
  }

  /** Every encoder can transform its column: the encoder loop runs to the end. */
  predicate AllEncodable(row: seq<Column>, encoders: Encoders)
  {
    forall c :: c in encoders ==> Encodable(row, c, encoders[c])
  }

  /** A cell after its column's encoder has run: the code when there is one. */
  function EncodeCell(classes: Classes, cell: Cell): Cell
  {
    match Transform(classes, cell)
    case Some(k) => IntVal(k)
    case None => cell
  }

  /** The frame after the encoder loop: encoded columns hold codes, every other column is untouched. */
  function EncodedRow(row: seq<Column>, encoders: Encoders): (r: seq<Column>)
    ensures Names(r) == Names(row)
    ensures forall i :: 0 <= i < |row| && row[i].name !in encoders ==> r[i] == row[i]
    ensures forall i :: 0 <= i < |row| && row[i].name in encoders && Transform(encoders[row[i].name], row[i].value).Some? ==>
      r[i].value.IntVal? && InverseTransform(encoders[row[i].name], r[i].value.i) == Some(row[i].value.s)
  {
    seq(|row|, i requires 0 <= i < |row| =>
      if row[i].name in encoders then Column(row[i].name, EncodeCell(encoders[row[i].name], row[i].value))
      else row[i])
  }

  /** The error `e` is one the encoder loop can raise on `row`. */
  predicate FailsOn(row: seq<Column>, encoders: Encoders, e: Error)
  {
    match e
    case MissingColumn(c) => c in encoders && FindColumn(row, c).None?
    case UnknownCategory(c, v) =>
      c in encoders && FindColumn(row, c).Some? &&
      row[FindColumn(row, c).value].value == v && Transform(encoders[c], v).None?
    case _ => false
  }

  /** The loop's progress: the columns of encoders not in `todo` are encoded, all others untouched. */
  predicate EncodedExcept(row: seq<Column>, encoders: Encoders, todo: set<string>, frame: seq<Column>)
  {
    |frame| == |row| &&
    forall i :: 0 <= i < |row| ==>
      frame[i] == if row[i].name in encoders && row[i].name !in todo
                  then Column(row[i].name, EncodeCell(encoders[row[i].name], row[i].value))
                  else row[i]
  }

  /** Encoding column `col` at its position `k` moves `col` from to-do to done. */
  lemma EncodeStep(row: seq<Column>, encoders: Encoders, todo: set<string>, frame: seq<Column>, col: string, k: nat, code: nat)
    requires DistinctNames(row) && EncodedExcept(row, encoders, todo, frame)
    requires col in todo && col in encoders && k < |row| && row[k].name == col
    requires Transform(encoders[col], row[k].value) == Some(code)
    ensures EncodedExcept(row, encoders, todo - {col}, frame[k := Column(col, IntVal(code))])
  {
  }

  /** When nothing is left to do, the frame is the encoded row. */
  lemma EncodeDone(row: seq<Column>, encoders: Encoders, frame: seq<Column>)
    requires EncodedExcept(row, encoders, {}, frame)
    ensures frame == EncodedRow(row, encoders)
  {
  }

  /**
   * The encoder loop: each column that has an encoder is overwritten with its codes.
   * Succeeds exactly when every encoder can transform its column, and then yields the encoded
   * frame; otherwise it stops at a column whose lookup or transform raises.
   */
  method EncodeFeatures(row: seq<Column>, encoders: Encoders) returns (r: Result<seq<Column>, Error>)
    requires DistinctNames(row)
    ensures r.Success? <==> AllEncodable(row, encoders)
    ensures r.Success? ==> r.value == EncodedRow(row, encoders)
    ensures r.Failure? ==> FailsOn(row, encoders, r.error)
  {
    var frame := row;
    var todo := encoders.Keys;
    while todo != {}
      invariant todo <= encoders.Keys
      invariant EncodedExcept(row, encoders, todo, frame)
      invariant forall c :: c in encoders && c !in todo ==> Encodable(row, c, encoders[c])
      decreases todo
    {
      var col :| col in todo;
      var idx := FindColumn(frame, col);
      if idx.None? {
        assert forall i :: 0 <= i < |row| ==> row[i].name == frame[i].name;
        return Failure(MissingColumn(col));
      }
      var k := idx.value;
      assert row[k].name == col && frame[k] == row[k];
      assert FindColumn(row, col) == Some(k);
      var code := Transform(encoders[col], frame[k].value);
      if code.None? {
        return Failure(UnknownCategory(col, frame[k].value));
      }
      EncodeStep(row, encoders, todo, frame, col, k, code.value);
      frame := frame[k := Column(col, IntVal(code.value))];
      todo := todo - {col};
    }
    EncodeDone(row, encoders, frame);
    return Success(frame);
  }

  // ---------------- Prediction store ----------------

  /** The predictions table, as the session sees it. */
  class PredictionStore {
    var records: seq<Prediction>

    constructor ()
      ensures records == []
    {
      records := [];
    }

    /** `db.add(record); db.commit()`. */
    method Add(p: Prediction)
      modifies this
      ensures records == old(records) + [p]
    {
      records := records + [p];
    }

    /**
     * The /history query for one user: the user's stored records, one entry each,
     * newest first, and nothing of any other user.
     */
    method History(userId: int) returns (h: seq<HistoryEntry>)
      ensures forall i, j :: 0 <= i < j < |h| ==> h[i].date >= h[j].date
      ensures forall e :: e in h ==> exists p :: p in records && p.userId == userId && Entry(p) == e
      ensures forall p :: p in records && p.userId == userId ==> Entry(p) in h
      ensures exists s :: multiset(s) == multiset(RecordsOf(records, userId)) && NewestFirst(s) && h == Entries(s)
    {
      h := UserHistory(records, userId);
      forall e | e in h
        ensures exists p :: p in records && p.userId == userId && Entry(p) == e
      {
        HistoryOnlyOwnRecords(records, userId, e);
      }
      forall p | p in records && p.userId == userId
        ensures Entry(p) in h
      {
        HistoryHasAllOwnRecords(records, userId, p);
      }
      HistoryPairsRecords(records, userId);
    }
  }

  // ---------------- /predict ----------------

  /** The stored record echoes the request, tags it with the user and the time, and carries `bmi` and `level`. */
  predicate RecordOf(p: Prediction, userId: int, data: ChildInput, now: Timestamp, bmi: real, level: string)
  {
    p == Prediction(userId, data.age, data.gender, data.heightCm, data.weightKg, data.activityLevel, bmi, level, now)
  }

  /**
   * `predict_nutrition`: BMI, the feature frame, the encoder loop, the classifier, label
   * decoding and the plan lookup; on success one record is stored and the response returned,
   * on any failure the store is untouched.
   */
  method PredictNutrition(
    data: ChildInput, userId: int, now: Timestamp, art: Artifacts, round2: real -> real, db: PredictionStore)
    returns (r: Result<Response, Error>)
    modifies db
    ensures data.heightCm == 0.0 ==> r == Failure(DivisionByZero)
    ensures data.heightCm != 0.0 ==>
      var row := InputFrame(data, CalculateBmi(data.weightKg, data.heightCm));
      (!AllEncodable(row, art.featureEncoders) ==> r.Failure? && FailsOn(row, art.featureEncoders, r.error)) &&
      (AllEncodable(row, art.featureEncoders) ==>
        var code := art.model(EncodedRow(row, art.featureEncoders));
        r == match InverseTransform(art.targetEncoder, code)
             case None => Failure(UnseenLabel(code))
             case Some(level) =>
               Success(Response(round2(CalculateBmi(data.weightKg, data.heightCm)), level, GetNutritionRecommendation(level))))
    ensures r.Success? ==> r.value.calorieLevel in art.targetEncoder
    ensures r.Success? ==> r.value.nutritionRecommendation == GetNutritionRecommendation(r.value.calorieLevel)
    ensures r.Failure? ==> db.records == old(db.records)
    ensures r.Success? ==>
      |db.records| == |old(db.records)| + 1 &&
      db.records[..|old(db.records)|] == old(db.records) &&
      RecordOf(db.records[|old(db.records)|], userId, data, now, r.value.bmi, r.value.calorieLevel)
  {
    if data.heightCm == 0.0 {
      return Failure(DivisionByZero);
    }
    var bmi := CalculateBmi(data.weightKg, data.heightCm);
    var inputFrame := InputFrame(data, bmi);
    var encoded := EncodeFeatures(inputFrame, art.featureEncoders);
    if encoded.Failure? {
      return Failure(encoded.error);
    }
    var prediction := art.model(encoded.value);
    var decoded := InverseTransform(art.targetEncoder, prediction);
    if decoded.None? {
      return Failure(UnseenLabel(prediction));
    }
    var calorieLevel := decoded.value;
    var nutritionPlan := GetNutritionRecommendation(calorieLevel);
    var record := Prediction(
      userId, data.age, data.gender, data.heightCm, data.weightKg, data.activityLevel,
      round2(bmi), calorieLevel, now);
    db.Add(record);
    r := Success(Response(round2(bmi), calorieLevel, nutritionPlan));
  }

  /** Two identical requests get identical responses, and each successful one stores its own record. */
  method PredictTwice(data: ChildInput, userId: int, t1: Timestamp, t2: Timestamp, art: Artifacts, round2: real -> real, db: PredictionStore)
    returns (r1: Result<Response, Error>, r2: Result<Response, Error>)
    modifies db
    ensures r1.Success? <==> r2.Success?
    ensures r1.Success? ==> r1 == r2
    ensures r1.Success? ==> |db.records| == |old(db.records)| + 2
    ensures r1.Failure? ==> db.records == old(db.records)
  {
    r1 := PredictNutrition(data, userId, t1, art, round2, db);
    r2 := PredictNutrition(data, userId, t2, art, round2, db);
  }

  // ---------------- /history ----------------

  /** Newest first: `created_at` never increases along the sequence. */
  predicate NewestFirst(s: seq<Prediction>)
  {
    forall i, j :: 0 <= i < j < |s| ==> s[i].createdAt >= s[j].createdAt
  }

  /** `.filter(Prediction.user_id == current_user.id)`: the user's records, each as often as stored. */
  function RecordsOf(records: seq<Prediction>, userId: int): (mine: seq<Prediction>)
    ensures forall p :: multiset(mine)[p] == if p.userId == userId then multiset(records)[p] else 0
  {
    if records == [] then []
    else
      assert records == [records[0]] + records[1..];
      if records[0].userId == userId then [records[0]] + RecordsOf(records[1..], userId)
      else RecordsOf(records[1..], userId)
  }

  /** Places `p` in a newest-first sequence ahead of every record not newer than it. */
  function Insert(p: Prediction, s: seq<Prediction>): (r: seq<Prediction>)
    ensures multiset(r) == multiset(s) + multiset{p}
  {
    if s == [] then [p]
    else if p.createdAt >= s[0].createdAt then [p] + s
    else
      assert s == [s[0]] + s[1..];
      [s[0]] + Insert(p, s[1..])
  }

  /** Inserting into a newest-first sequence keeps it newest first. */
  lemma {:induction false} InsertNewestFirst(p: Prediction, s: seq<Prediction>)
    requires NewestFirst(s)
    ensures NewestFirst(Insert(p, s))
  {
    if s != [] && p.createdAt < s[0].createdAt {
      var rest := Insert(p, s[1..]);
      InsertNewestFirst(p, s[1..]);
      forall q | q in rest
        ensures q.createdAt <= s[0].createdAt
      {
        assert q in multiset(rest);
        assert q == p || q in multiset(s[1..]);
      }
      var r := [s[0]] + rest;
      assert Insert(p, s) == r;
      forall i, j | 0 <= i < j < |r|
        ensures r[i].createdAt >= r[j].createdAt
      {
        assert r[j] == rest[j - 1];
        if i > 0 {
          assert r[i] == rest[i - 1];
        } else {
          assert rest[j - 1] in rest;
        }
      }
    }
  }

  /** `.order_by(Prediction.created_at.desc())`: the same records, newest first. */
  function SortNewestFirst(s: seq<Prediction>): (r: seq<Prediction>)
    ensures multiset(r) == multiset(s)
    ensures NewestFirst(r)
  {
    if s == [] then []
    else
      assert s == [s[0]] + s[1..];
      InsertNewestFirst(s[0], SortNewestFirst(s[1..]));
      Insert(s[0], SortNewestFirst(s[1..]))
  }

  /** A record projected to the fields /history shows. */
  function Entry(p: Prediction): HistoryEntry
  {
    HistoryEntry(p.bmi, p.calorieLevel, p.createdAt)
  }

  /** The list comprehension over the query's records: each shown as (bmi, calorie_level, date). */
  function Entries(s: seq<Prediction>): (h: seq<HistoryEntry>)
    ensures |h| == |s|
    ensures forall i :: 0 <= i < |s| ==> h[i] == Entry(s[i])
  {
    seq(|s|, i requires 0 <= i < |s| => Entry(s[i]))
  }

  /** `get_prediction_history`: the user's records, newest first, each shown as (bmi, calorie_level, date). */
  function UserHistory(records: seq<Prediction>, userId: int): (h: seq<HistoryEntry>)
    ensures forall i, j :: 0 <= i < j < |h| ==> h[i].date >= h[j].date
  {
    Entries(SortNewestFirst(RecordsOf(records, userId)))
  }

  /**
   * The history pairs entries with the user's records one to one: it is the projection of
   * a newest-first arrangement of exactly those records, each as often as it is stored.
   */
  lemma HistoryPairsRecords(records: seq<Prediction>, userId: int)
    ensures exists s ::
      multiset(s) == multiset(RecordsOf(records, userId)) && NewestFirst(s) && UserHistory(records, userId) == Entries(s)
  {
    var s := SortNewestFirst(RecordsOf(records, userId));
    assert multiset(s) == multiset(RecordsOf(records, userId)) && NewestFirst(s) && UserHistory(records, userId) == Entries(s);
  }

  /** Every history entry is the projection of a record of that user: another user's records never show. */
  lemma HistoryOnlyOwnRecords(records: seq<Prediction>, userId: int, e: HistoryEntry)
    requires e in UserHistory(records, userId)
    ensures exists p :: p in records && p.userId == userId && Entry(p) == e
  {
    var sorted := SortNewestFirst(RecordsOf(records, userId));
    var i :| 0 <= i < |sorted| && UserHistory(records, userId)[i] == e;
    var p := sorted[i];
    assert p in multiset(sorted);
    assert multiset(RecordsOf(records, userId))[p] > 0;
    assert p.userId == userId && p in multiset(records);
  }

  /** Every record of the user shows in the history. */
  lemma HistoryHasAllOwnRecords(records: seq<Prediction>, userId: int, p: Prediction)
    requires p in records && p.userId == userId
    ensures Entry(p) in UserHistory(records, userId)
  {
    var sorted := SortNewestFirst(RecordsOf(records, userId));
    assert multiset(records)[p] > 0;
    assert p in multiset(sorted);
    var i :| 0 <= i < |sorted| && sorted[i] == p;
    assert UserHistory(records, userId)[i] == Entry(p);
  }

  /** The history has one entry per stored record of the user. */
  lemma HistoryLength(records: seq<Prediction>, userId: int)
    ensures |UserHistory(records, userId)| == |RecordsOf(records, userId)|
  {
  }
}
