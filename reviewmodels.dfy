/**
 * The review records: three chunk schemas (P1-P6; P7-P11; P12-P16 with the overall
 * verdict) and the complete review that merges them. A schema maps each field name to
 * the kind of value it admits; a validated record maps each field name to its value.
 */
module ReviewModels {
  import opened Wrappers
  import opened JsonValue
  import opened Text

  /** The value kinds the schemas use. */
  datatype Kind =
    | TextKind            // str
    | ScoreKind           // Union[int, Literal["N/A"]]
    | CheckedScoreKind    // the same, through validate_scores: an int must lie in 1..5
    | LikertKind          // int with ge=1, le=5
    | IntegerKind         // int

  /** A validated field value: a string, an integer, or the literal "N/A". */
  datatype Value = Str(s: string) | Num(n: int) | NotApplicable

  type Schema = map<string, Kind>
  type Record = map<string, Value>

  const NotApplicableText := "N/A"
  const SensorField := "sensor_evaluated"
  const OverallScoreField := "overall_score"
  const OverallJustificationField := "overall_justification"
  const ConfirmationField := "confirmation"
  /** The fields that are not numbered criteria. */
  const NamedFields := {SensorField, OverallScoreField, OverallJustificationField, ConfirmationField}

  function ScoreField(i: nat): string
  {
    "p" + Decimal(i) + "_score"
  }

  function JustificationField(i: nat): string
  {
    "p" + Decimal(i) + "_justification"
  }

  predicate InLikertRange(n: int)
  {
    1 <= n <= 5
  }

  /** Whether a decoded value passes a field of kind `k`, and the value the field then holds. */
  function Accept(k: Kind, v: Json): Option<Value>
  {
    match (k, v)
    case (TextKind, JString(s)) => Some(Str(s))
    case (ScoreKind, JInt(n)) => Some(Num(n))
    case (ScoreKind, JString(s)) => if s == NotApplicableText then Some(NotApplicable) else None
    case (CheckedScoreKind, JInt(n)) => if InLikertRange(n) then Some(Num(n)) else None
    case (CheckedScoreKind, JString(s)) => if s == NotApplicableText then Some(NotApplicable) else None
    case (LikertKind, JInt(n)) => if InLikertRange(n) then Some(Num(n)) else None
    case (IntegerKind, JInt(n)) => Some(Num(n))
    case _ => None
  }

  /** A field value handed back to a constructor, as Python passes it on. */
  function ToJson(x: Value): Json
  {
    match x
    case Str(s) => JString(s)
    case Num(n) => JInt(n)
    case NotApplicable => JString(NotApplicableText)
  }

  /** The P`lo`..P`hi` score and justification fields, scores of kind `k`. */
  function Criteria(lo: nat, hi: nat, k: Kind): Schema
    decreases hi + 1 - lo
  {
    if lo > hi then map[]
    else Criteria(lo + 1, hi, k)[ScoreField(lo) := k][JustificationField(lo) := TextKind]
  }

  function ChunkSchema(n: int): Schema
    requires 1 <= n <= 3
  {
    if n == 1 then Criteria(1, 6, ScoreKind)[SensorField := TextKind]
    else if n == 2 then Criteria(7, 11, ScoreKind)[SensorField := TextKind]
    else Criteria(12, 16, ScoreKind)[SensorField := TextKind][OverallScoreField := LikertKind]
         [OverallJustificationField := TextKind][ConfirmationField := TextKind]
  }

  function CompleteSchema(): Schema
  {
    Criteria(1, 16, CheckedScoreKind)[SensorField := TextKind][OverallScoreField := IntegerKind]
    [OverallJustificationField := TextKind][ConfirmationField := TextKind]
  }

  /** Every field is present and passes its kind. Fields the schema does not name are ignored. */
  predicate Conforms(schema: Schema, data: map<string, Json>)
  {
    forall f :: f in schema ==> f in data && Accept(schema[f], data[f]).Some?
  }

  /** Model(**data): the record, or None where pydantic raises a ValidationError. */
  function Validate(schema: Schema, data: map<string, Json>): (r: Option<Record>)
    ensures r.Some? <==> Conforms(schema, data)
    ensures r.Some? ==> r.value.Keys == schema.Keys
    ensures r.Some? ==> forall f :: f in schema ==> Accept(schema[f], data[f]) == Some(r.value[f])
  {
    if Conforms(schema, data) then Some(map f | f in schema :: Accept(schema[f], data[f]).value) else None
  }

  /** ReviewChunk`n`(**json_data): anything but a dict raises before validation. */
  function ValidateChunk(n: int, v: Json): Option<Record>
    requires 1 <= n <= 3
  {
    match v
    case JObject(members) => Validate(ChunkSchema(n), Dict(members))
    case _ => None
  }

  /** The kind a validated value belongs to. */
  predicate Fits(k: Kind, x: Value)
  {
    Accept(k, ToJson(x)) == Some(x)
  }

  /** A record of the given schema: its fields and nothing else, each of its kind. */
  predicate IsRecord(schema: Schema, r: Record)
  {
    r.Keys == schema.Keys && forall f :: f in r ==> Fits(schema[f], r[f])
  }

  // ---------------------------------------------------------------- properties

  /** Validation hands values on unchanged: the value held is the value given. */
  lemma AcceptKeepsValue(k: Kind, v: Json)
    requires Accept(k, v).Some?
    ensures ToJson(Accept(k, v).value) == v
    ensures Fits(k, Accept(k, v).value)
  {
  }

  /** A validated record is a record of its schema. */
  lemma ValidateGivesRecord(schema: Schema, data: map<string, Json>)
    requires Validate(schema, data).Some?
    ensures IsRecord(schema, Validate(schema, data).value)
  {
    var r := Validate(schema, data).value;
    forall f | f in r
      ensures Fits(schema[f], r[f])
    {
      AcceptKeepsValue(schema[f], data[f]);
    }
  }

  /** A score field takes exactly an integer or the literal "N/A", any integer at all. */
  lemma ScoreKindAcceptsExactly(v: Json)
    ensures Accept(ScoreKind, v).Some? <==> v.JInt? || v == JString(NotApplicableText)
    ensures v.JInt? ==> Accept(ScoreKind, v) == Some(Num(v.i))
  {
  }

  /** Through validate_scores, an integer score must lie in 1..5; "N/A" still passes. */
  lemma CheckedScoreKindAcceptsExactly(v: Json)
    ensures Accept(CheckedScoreKind, v).Some? <==> (v.JInt? && InLikertRange(v.i)) || v == JString(NotApplicableText)
  {
  }

  /** The chunk-3 overall score is an integer in 1..5; "N/A" is refused. */
  lemma LikertKindAcceptsExactly(v: Json)
    ensures Accept(LikertKind, v).Some? <==> v.JInt? && InLikertRange(v.i)
    ensures Accept(LikertKind, JString(NotApplicableText)).None?
  {
  }

  /** `f` is the score or the justification field of criterion P`i`. */
  predicate IsCriterionField(f: string, i: nat)
  {
    f == ScoreField(i) || f == JustificationField(i)
  }

  lemma {:induction false} CriteriaHas(lo: nat, hi: nat, k: Kind, f: string)
    ensures f in Criteria(lo, hi, k) <==> exists i :: lo <= i <= hi && IsCriterionField(f, i)
    decreases hi + 1 - lo
  {
    if lo <= hi {
      CriteriaHas(lo + 1, hi, k, f);
      if exists i :: lo <= i <= hi && IsCriterionField(f, i) {
        var i :| lo <= i <= hi && IsCriterionField(f, i);
        if i > lo {
          assert lo + 1 <= i <= hi && IsCriterionField(f, i);
        }
      }
      if f in Criteria(lo, hi, k) {
        if IsCriterionField(f, lo) {
          assert lo <= lo <= hi;
        } else {
          var i :| lo + 1 <= i <= hi && IsCriterionField(f, i);
          assert lo <= i <= hi;
        }
      }
    }
  }

  lemma FieldNamesDistinct(i: nat, j: nat)
    ensures ScoreField(i) == ScoreField(j) ==> i == j
    ensures JustificationField(i) == JustificationField(j) ==> i == j
    ensures ScoreField(i) != JustificationField(j)
    ensures ScoreField(i) !in NamedFields && JustificationField(i) !in NamedFields
  {
    if ScoreField(i) == ScoreField(j) {
      DecimalAfterP(Decimal(i), Decimal(j), "_score");
      DecimalInjective(i, j);
    }
    if JustificationField(i) == JustificationField(j) {
      DecimalAfterP(Decimal(i), Decimal(j), "_justification");
      DecimalInjective(i, j);
    }
    FieldEndings(i, j);
  }

  /** Two names "p" + digits + the same suffix agree only when their digits do. */
  lemma DecimalAfterP(di: string, dj: string, suffix: string)
    requires "p" + di + suffix == "p" + dj + suffix
    ensures di == dj
  {
    var s, t := "p" + di + suffix, "p" + dj + suffix;
    assert |di| == |dj|;
    assert s[1..1 + |di|] == di;
    assert t[1..1 + |dj|] == dj;
  }

  /** Score names end in 'e', justification names in 'n', and both start with 'p'. */
  lemma FieldEndings(i: nat, j: nat)
    ensures ScoreField(i) != JustificationField(j)
    ensures ScoreField(i) !in NamedFields && JustificationField(i) !in NamedFields
  {
    var s, t := ScoreField(i), JustificationField(j);
    assert s[|s| - 1] == 'e' && t[|t| - 1] == 'n';
    assert ScoreField(i)[0] == 'p' && JustificationField(i)[0] == 'p';
  }

  /** Within a block of criteria each score field has kind `k` and each justification is text. */
  lemma {:induction false} CriteriaKinds(lo: nat, hi: nat, k: Kind, i: nat)
    requires lo <= i <= hi
    ensures ScoreField(i) in Criteria(lo, hi, k) && Criteria(lo, hi, k)[ScoreField(i)] == k
    ensures JustificationField(i) in Criteria(lo, hi, k) && Criteria(lo, hi, k)[JustificationField(i)] == TextKind
    decreases hi + 1 - lo
  {
    FieldNamesDistinct(i, lo);
    FieldNamesDistinct(lo, i);
    if i > lo {
      CriteriaKinds(lo + 1, hi, k, i);
    }
  }

  /** The field names of a schema: the criteria blocks plus the named fields. */
  lemma ChunkFields(n: int, f: string)
    requires 1 <= n <= 3
    ensures f in ChunkSchema(n) <==>
              f == SensorField
              || (n == 1 && exists i :: 1 <= i <= 6 && IsCriterionField(f, i))
              || (n == 2 && exists i :: 7 <= i <= 11 && IsCriterionField(f, i))
              || (n == 3 && ((exists i :: 12 <= i <= 16 && IsCriterionField(f, i))
                             || (f in NamedFields && f != SensorField)))
  {
    if n == 1 {
      CriteriaHas(1, 6, ScoreKind, f);
    } else if n == 2 {
      CriteriaHas(7, 11, ScoreKind, f);
    } else {
      CriteriaHas(12, 16, ScoreKind, f);
    }
  }

  lemma CompleteFields(f: string)
    ensures f in CompleteSchema() <==>
              f in NamedFields || exists i :: 1 <= i <= 16 && IsCriterionField(f, i)
  {
    CriteriaHas(1, 16, CheckedScoreKind, f);
  }

  /** Two chunks share the sensor name and nothing else. */
  lemma {:induction false} ChunksDisjoint(m: int, n: int)
    requires 1 <= m < n <= 3
    ensures ChunkSchema(m).Keys * ChunkSchema(n).Keys == {SensorField}
  {
    forall f | f in ChunkSchema(m) && f in ChunkSchema(n)
      ensures f == SensorField
    {
      ChunkFields(m, f);
      ChunkFields(n, f);
      if f != SensorField {
        if exists i :: 1 <= i <= 16 && IsCriterionField(f, i) {
          var i :| 1 <= i <= 16 && IsCriterionField(f, i);
          FieldNamesDistinct(i, i);
          var j :| 1 <= j <= 16 && IsCriterionField(f, j) && (m == 1 ==> 1 <= j <= 6) && (m == 2 ==> 7 <= j <= 11) && (m == 3 ==> 12 <= j <= 16);
          var k :| 1 <= k <= 16 && IsCriterionField(f, k) && (n == 1 ==> 1 <= k <= 6) && (n == 2 ==> 7 <= k <= 11) && (n == 3 ==> 12 <= k <= 16);
          SameCriterion(f, j, k);
        }
      }
    }
    ChunkFields(m, SensorField);
    ChunkFields(n, SensorField);
  }

  /** A field name belongs to at most one criterion. */
  lemma SameCriterion(f: string, j: nat, k: nat)
    requires IsCriterionField(f, j) && IsCriterionField(f, k)
    ensures j == k
  {
    FieldNamesDistinct(j, k);
    FieldNamesDistinct(k, j);
  }

  /** The complete review has exactly the fields of the three chunks together. */
  lemma {:induction false} CompleteIsUnion()
    ensures CompleteSchema().Keys == ChunkSchema(1).Keys + ChunkSchema(2).Keys + ChunkSchema(3).Keys
  {
    forall f
      ensures f in CompleteSchema() <==> f in ChunkSchema(1) || f in ChunkSchema(2) || f in ChunkSchema(3)
    {
      CompleteFields(f);
      ChunkFields(1, f);
      ChunkFields(2, f);
      ChunkFields(3, f);
      if exists i :: 1 <= i <= 16 && IsCriterionField(f, i) {
        var i :| 1 <= i <= 16 && IsCriterionField(f, i);
        if i <= 6 {
          assert 1 <= i <= 6 && IsCriterionField(f, i);
        } else if i <= 11 {
          assert 7 <= i <= 11 && IsCriterionField(f, i);
        } else {
          assert 12 <= i <= 16 && IsCriterionField(f, i);
        }
      }
    }
  }

  /** What a chunk field's kind becomes in the complete review. */
  function Merged(k: Kind): Kind
  {
    match k
    case ScoreKind => CheckedScoreKind
    case LikertKind => IntegerKind
    case _ => k
  }

  /**
   * Each chunk field keeps its kind in the complete review, except that Pn scores gain the
   * 1..5 check and the overall score loses it.
   */
  lemma {:induction false} CompleteKinds(n: int, f: string)
    requires 1 <= n <= 3 && f in ChunkSchema(n)
    ensures f in CompleteSchema() && CompleteSchema()[f] == Merged(ChunkSchema(n)[f])
  {
    ChunkFields(n, f);
    if f == SensorField || (n == 3 && f in NamedFields) {
      NamedMerged(n, f);
    } else if n == 1 {
      var i :| 1 <= i <= 6 && IsCriterionField(f, i);
      CriterionMerged(n, f, i);
    } else if n == 2 {
      var i :| 7 <= i <= 11 && IsCriterionField(f, i);
      CriterionMerged(n, f, i);
    } else {
      var i :| 12 <= i <= 16 && IsCriterionField(f, i);
      CriterionMerged(n, f, i);
    }
  }

  /** A named field keeps its chunk kind, merged, in the complete review. */
  lemma NamedMerged(n: int, f: string)
    requires 1 <= n <= 3 && (f == SensorField || (n == 3 && f in NamedFields))
    ensures f in ChunkSchema(n) && f in CompleteSchema() && CompleteSchema()[f] == Merged(ChunkSchema(n)[f])
  {
    assert SensorField[0] == 's' && ConfirmationField[0] == 'c';
    assert OverallScoreField[0] == 'o' && OverallJustificationField[0] == 'o';
    assert OverallScoreField[8] == 's' && OverallJustificationField[8] == 'j';
  }

  /** A criterion field keeps its chunk kind, merged, in the complete review. */
  lemma CriterionMerged(n: int, f: string, i: nat)
    requires 1 <= n <= 3
    requires (n == 1 ==> 1 <= i <= 6) && (n == 2 ==> 7 <= i <= 11) && (n == 3 ==> 12 <= i <= 16)
    requires IsCriterionField(f, i)
    ensures f in ChunkSchema(n) && f in CompleteSchema() && CompleteSchema()[f] == Merged(ChunkSchema(n)[f])
  {
    ChunkCriterionKinds(n, i);
    CompleteCriterionKinds(i);
  }

  /** In its chunk, criterion P`i` has a score of any integer and a text justification. */
  lemma ChunkCriterionKinds(n: int, i: nat)
    requires 1 <= n <= 3
    requires (n == 1 ==> 1 <= i <= 6) && (n == 2 ==> 7 <= i <= 11) && (n == 3 ==> 12 <= i <= 16)
    ensures ScoreField(i) in ChunkSchema(n) && ChunkSchema(n)[ScoreField(i)] == ScoreKind
    ensures JustificationField(i) in ChunkSchema(n) && ChunkSchema(n)[JustificationField(i)] == TextKind
  {
    FieldNamesDistinct(i, i);
    if n == 1 {
      CriteriaKinds(1, 6, ScoreKind, i);
    } else if n == 2 {
      CriteriaKinds(7, 11, ScoreKind, i);
    } else {
      CriteriaKinds(12, 16, ScoreKind, i);
    }
  }

  /** In the complete review, criterion P`i` has a checked score and a text justification. */
  lemma CompleteCriterionKinds(i: nat)
    requires 1 <= i <= 16
    ensures ScoreField(i) in CompleteSchema() && CompleteSchema()[ScoreField(i)] == CheckedScoreKind
    ensures JustificationField(i) in CompleteSchema() && CompleteSchema()[JustificationField(i)] == TextKind
  {
    FieldNamesDistinct(i, i);
    CriteriaKinds(1, 16, CheckedScoreKind, i);
  }

  /** A score field of every chunk takes any integer: the chunks impose no range. */
  lemma ChunkScoresUnchecked(n: int, i: nat, score: int)
    requires 1 <= n <= 3
    requires (n == 1 ==> 1 <= i <= 6) && (n == 2 ==> 7 <= i <= 11) && (n == 3 ==> 12 <= i <= 16)
    ensures ScoreField(i) in ChunkSchema(n) && Accept(ChunkSchema(n)[ScoreField(i)], JInt(score)) == Some(Num(score))
  {
    ChunkCriterionKinds(n, i);
  }

  /** Every score field of the complete review refuses an integer outside 1..5. */
  lemma CompleteScoresChecked(i: nat, score: int)
    requires 1 <= i <= 16
    ensures ScoreField(i) in CompleteSchema()
    ensures Accept(CompleteSchema()[ScoreField(i)], JInt(score)).Some? <==> InLikertRange(score)
    ensures Accept(CompleteSchema()[ScoreField(i)], JString(NotApplicableText)) == Some(NotApplicable)
  {
    CompleteCriterionKinds(i);
  }

  /** The overall score: 1..5 in chunk 3, any integer in the complete review. */
  lemma OverallScoreKinds()
    ensures ChunkSchema(3)[OverallScoreField] == LikertKind
    ensures CompleteSchema()[OverallScoreField] == IntegerKind
  {
  }

  /** Every field is required: a missing one fails validation. */
  lemma MissingFieldRejected(schema: Schema, data: map<string, Json>, f: string)
    requires f in schema && f !in data
    ensures Validate(schema, data).None?
  {
  }

  /** Fields a schema does not name make no difference. */
  lemma ExtraFieldIgnored(schema: Schema, data: map<string, Json>, key: string, v: Json)
    requires key !in schema
    ensures Validate(schema, data[key := v]) == Validate(schema, data)
  {
    var data' := data[key := v];
    assert Conforms(schema, data') <==> Conforms(schema, data);
    if Conforms(schema, data) {
      var a, b := Validate(schema, data').value, Validate(schema, data).value;
      forall f | f in a
        ensures a[f] == b[f]
      {
        assert data'[f] == data[f];
      }
      assert a == b;
    }
  }
}
