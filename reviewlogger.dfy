/**
 * The review score logger: one CSV file per reviewer model and sensor, one row per
 * review, with the per-criterion scores and justifications spread over 43 fixed columns
 * and the mean of the numeric P1..P16 scores.
 *
 * A CSV file is a sequence of records (the header, then data rows); the files are a map
 * from path to records. The timestamp is passed in.
 */
module ReviewLogging {
  import opened Wrappers
  import opened JsonValue
  import opened Text

  /** The criterion names, P1 to P16 in order. */
  const CriteriaBaseNames :=
    ["Disclaimer", "Manufacturer_Info", "General_Description", "Theory_Of_Operation", "Features",
     "Potential_Applications", "Pin_Configuration", "Absolute_Maximum_Ratings",
     "Electrical_Characteristics", "Operating_Conditions", "Sensor_Performance",
     "Communication_Protocol", "Register_Map", "Package_Information", "Basic_Usage",
     "Compliance_Certifications"]

  /** The columns naming who reviewed which datasheet. */
  const IdentityColumns :=
    ["Sensor_Brand", "Sensor_Type", "Generated_Datasheet_LLM_Provider", "Generated_Datasheet_LLM_Model",
     "Reviewer_LLM_Provider", "Reviewer_LLM_Model", "Official_Datasheet_Status"]

  /**
   * The CSV columns, in order: the identity columns, the sixteen score columns, the
   * average and the overall score, the sixteen justification columns, the overall
   * justification and the timestamp (43 names).
   */
  const OrderedFieldNames: seq<string> :=
    IdentityColumns + ScoreColumns() + ["Average_Pn_Score", "Overall_Likert_Score"]
    + JustificationColumns() + ["Overall_Justification", "Review_Timestamp"]

  /** The score columns of P1..P16. */
  function ScoreColumns(): seq<string>
  {
    seq(16, k requires 0 <= k < 16 => ScoreColumn(k + 1, CriteriaBaseNames[k]))
  }

  /** The justification columns of P1..P16. */
  function JustificationColumns(): seq<string>
  {
    seq(16, k requires 0 <= k < 16 => JustificationColumn(k + 1, CriteriaBaseNames[k]))
  }

  const NotApplicable := "N/A"

  // ---------------------------------------------------------------- the average

  /** `isinstance(v, (int, float))`; a bool is an int to Python. */
  predicate Numeric(v: Json)
  {
    v.JInt? || v.JFloat? || v.JBool?
  }

  function NumberOf(v: Json): real
    requires Numeric(v)
  {
    match v
    case JInt(i) => i as real
    case JFloat(r) => r
    case JBool(b) => if b then 1.0 else 0.0
  }

  /** The key of criterion P`i` in the scores and justifications dicts. */
  function PKey(i: nat): string
  {
    "P" + Decimal(i)
  }

  /** Whether P`i`'s score takes part in the average. */
  predicate Counts(scores: map<string, Json>, i: nat)
  {
    PKey(i) in scores && scores[PKey(i)] != JString(NotApplicable) && Numeric(scores[PKey(i)])
  }

  /** The valid scores among P1..P`k`, in order. */
  function ValidScores(scores: map<string, Json>, k: nat): seq<real>
  {
    if k == 0 then []
    else ValidScores(scores, k - 1) + (if Counts(scores, k) then [NumberOf(scores[PKey(k)])] else [])
  }

  function Sum(xs: seq<real>): real
  {
    if |xs| == 0 then 0.0 else Sum(xs[..|xs| - 1]) + xs[|xs| - 1]
  }

  /** The average the row records: a float, or "N/A" when no score counts. */
  function Average(scores: map<string, Json>): Json
  {
    var vs := ValidScores(scores, 16);
    if |vs| > 0 then JFloat(Sum(vs) / |vs| as real) else JString(NotApplicable)
  }

  /** _calculate_average_score: collect the valid P1..P16 scores, then divide their sum by their count. */
  method CalculateAverageScore(scores: map<string, Json>) returns (average: Json)
    ensures average == Average(scores)
  {
    var valid: seq<real> := [];
    var sum := 0.0;
    for i := 1 to 17
      invariant valid == ValidScores(scores, i - 1)
      invariant sum == Sum(valid)
    {
      var key := PKey(i);
      if key in scores && scores[key] != JString(NotApplicable) && Numeric(scores[key]) {
        SumSnoc(valid, NumberOf(scores[key]));
        valid := valid + [NumberOf(scores[key])];
        sum := sum + NumberOf(scores[key]);
      }
    }
    if |valid| > 0 {
      return JFloat(sum / |valid| as real);
    }
    return JString(NotApplicable);
  }

  /** Adding a value at the end adds it to the sum. */
  lemma SumSnoc(xs: seq<real>, x: real)
    ensures Sum(xs + [x]) == Sum(xs) + x
  {
    assert (xs + [x])[..|xs|] == xs;
  }

  /** A sum of values within [lo, hi] lies within count * lo and count * hi. */
  lemma {:induction false} SumBounds(xs: seq<real>, lo: real, hi: real)
    requires forall k :: 0 <= k < |xs| ==> lo <= xs[k] <= hi
    ensures |xs| as real * lo <= Sum(xs) <= |xs| as real * hi
  {
    if |xs| > 0 {
      SumBounds(xs[..|xs| - 1], lo, hi);
    }
  }

  /** Every valid score is the value of a P1..P16 key that counts. */
  lemma {:induction false} ValidScoresFrom(scores: map<string, Json>, k: nat, j: nat)
    requires j < |ValidScores(scores, k)|
    ensures exists i :: 1 <= i <= k && Counts(scores, i) && ValidScores(scores, k)[j] == NumberOf(scores[PKey(i)])
  {
    if j < |ValidScores(scores, k - 1)| {
      ValidScoresFrom(scores, k - 1, j);
      var i :| 1 <= i <= k - 1 && Counts(scores, i) && ValidScores(scores, k - 1)[j] == NumberOf(scores[PKey(i)]);
      assert ValidScores(scores, k)[j] == ValidScores(scores, k - 1)[j];
    } else {
      assert Counts(scores, k);
    }
  }

  /**
   * The average lies between the smallest and the largest valid score: any bounds that
   * hold for every counted P1..P16 score hold for the average.
   */
  lemma AverageBetween(scores: map<string, Json>, lo: real, hi: real)
    requires forall i :: 1 <= i <= 16 && Counts(scores, i) ==> lo <= NumberOf(scores[PKey(i)]) <= hi
    ensures Average(scores).JFloat? ==> lo <= Average(scores).r <= hi
  {
    var vs := ValidScores(scores, 16);
    forall j | 0 <= j < |vs|
      ensures lo <= vs[j] <= hi
    {
      ValidScoresFrom(scores, 16, j);
    }
    SumBounds(vs, lo, hi);
    if |vs| > 0 {
      QuotientBetween(Sum(vs), |vs| as real, lo, hi);
    }
  }

  /** A total between n * lo and n * hi, divided by n, lies between lo and hi. */
  lemma QuotientBetween(total: real, n: real, lo: real, hi: real)
    requires n > 0.0 && n * lo <= total <= n * hi
    ensures lo <= total / n <= hi
  {
    assert total / n * n == total;
  }

  /** No valid score is left out: each counted key contributes its value. */
  lemma {:induction false} ValidScoresHave(scores: map<string, Json>, k: nat, i: nat)
    requires 1 <= i <= k && Counts(scores, i)
    ensures NumberOf(scores[PKey(i)]) in ValidScores(scores, k)
  {
    if i < k {
      ValidScoresHave(scores, k - 1, i);
    }
  }

  lemma {:induction false} ValidScoresEmpty(scores: map<string, Json>, k: nat)
    requires forall i :: 1 <= i <= k ==> !Counts(scores, i)
    ensures ValidScores(scores, k) == []
  {
    if k > 0 {
      ValidScoresEmpty(scores, k - 1);
    }
  }

  /** The average is "N/A" exactly when none of P1..P16 holds a number. */
  lemma AverageMissingIff(scores: map<string, Json>)
    ensures Average(scores) == JString(NotApplicable) <==> forall i :: 1 <= i <= 16 ==> !Counts(scores, i)
    ensures Average(scores).JFloat? || Average(scores) == JString(NotApplicable)
  {
    if forall i :: 1 <= i <= 16 ==> !Counts(scores, i) {
      ValidScoresEmpty(scores, 16);
    } else {
      var i :| 1 <= i <= 16 && Counts(scores, i);
      ValidScoresHave(scores, 16, i);
    }
  }

  /** Only the P1..P16 entries matter: "Overall" and any other key leave the average alone. */
  lemma {:induction false} AverageOnlyReadsCriteria(s1: map<string, Json>, s2: map<string, Json>, k: nat)
    requires forall i :: 1 <= i <= k ==> (PKey(i) in s1 <==> PKey(i) in s2)
    requires forall i :: 1 <= i <= k && PKey(i) in s1 ==> s1[PKey(i)] == s2[PKey(i)]
    ensures ValidScores(s1, k) == ValidScores(s2, k)
    ensures k == 16 ==> Average(s1) == Average(s2)
  {
    if k > 0 {
      AverageOnlyReadsCriteria(s1, s2, k - 1);
      assert Counts(s1, k) <==> Counts(s2, k);
    }
  }

  // ---------------------------------------------------------------- the row

  /** The column of criterion P`i`'s score, `P{i}_{base}_Score`. */
  function ScoreColumn(i: nat, base: string): string
  {
    "P" + Decimal(i) + "_" + base + "_Score"
  }

  /** The column of criterion P`i`'s justification, `P{i}_{base}_Justification`. */
  function JustificationColumn(i: nat, base: string): string
  {
    "P" + Decimal(i) + "_" + base + "_Justification"
  }

  /** The columns that do not belong to one criterion. */
  const SummaryColumns: set<string> :=
    {"Sensor_Brand", "Sensor_Type", "Generated_Datasheet_LLM_Provider", "Generated_Datasheet_LLM_Model",
     "Reviewer_LLM_Provider", "Reviewer_LLM_Model", "Official_Datasheet_Status", "Average_Pn_Score",
     "Overall_Likert_Score", "Overall_Justification", "Review_Timestamp"}

  /** Who reviewed which datasheet, as log_review is told. */
  datatype ReviewInfo = ReviewInfo(
    reviewerProvider: string, reviewerModel: string, sensorBrand: string, sensorType: string,
    generatorProvider: string, generatorModel: string, officialDatasheetStatus: string)

  /** `d.get(key, default)`. */
  function Get(d: map<string, Json>, key: string, default: Json): Json
  {
    if key in d then d[key] else default
  }

  /** The row before the criteria are added. */
  function SummaryRow(info: ReviewInfo, average: Json, scores: map<string, Json>,
                      justifications: map<string, Json>, timestamp: string): map<string, Json>
  {
    map["Sensor_Brand" := JString(info.sensorBrand),
        "Sensor_Type" := JString(info.sensorType),
        "Generated_Datasheet_LLM_Provider" := JString(info.generatorProvider),
        "Generated_Datasheet_LLM_Model" := JString(info.generatorModel),
        "Reviewer_LLM_Provider" := JString(info.reviewerProvider),
        "Reviewer_LLM_Model" := JString(info.reviewerModel),
        "Official_Datasheet_Status" := JString(info.officialDatasheetStatus),
        "Average_Pn_Score" := average,
        "Overall_Likert_Score" := Get(scores, "Overall", JString(NotApplicable)),
        "Overall_Justification" := Get(justifications, "Overall", JString("")),
        "Review_Timestamp" := JString(timestamp)]
  }

  /** `row` with the score and justification columns of P1..P`k` set, P`i` being named `bases[i - 1]`. */
  function WithCriteria(row: map<string, Json>, bases: seq<string>, scores: map<string, Json>,
                        justifications: map<string, Json>, k: nat): map<string, Json>
    requires k <= |bases|
  {
    if k == 0 then row
    else WithCriteria(row, bases, scores, justifications, k - 1)
           [ScoreColumn(k, bases[k - 1]) := Get(scores, PKey(k), JString(NotApplicable))]
           [JustificationColumn(k, bases[k - 1]) := Get(justifications, PKey(k), JString(""))]
  }

  /** The row log_review writes for one review. */
  function Row(info: ReviewInfo, scores: map<string, Json>, justifications: map<string, Json>,
               timestamp: string): map<string, Json>
  {
    WithCriteria(SummaryRow(info, Average(scores), scores, justifications, timestamp), CriteriaBaseNames,
                 scores, justifications, 16)
  }

  /** Building the row: the summary columns, then the criteria one by one. */
  method BuildRow(info: ReviewInfo, scores: map<string, Json>, justifications: map<string, Json>,
                  timestamp: string) returns (row: map<string, Json>)
    ensures row == Row(info, scores, justifications, timestamp)
  {
    var average := CalculateAverageScore(scores);
    row := SummaryRow(info, average, scores, justifications, timestamp);
    for i := 1 to 17
      invariant row == WithCriteria(SummaryRow(info, average, scores, justifications, timestamp),
                                    CriteriaBaseNames, scores, justifications, i - 1)
    {
      var pKey, baseName := PKey(i), CriteriaBaseNames[i - 1];
      row := row[ScoreColumn(i, baseName) := Get(scores, pKey, JString(NotApplicable))];
      row := row[JustificationColumn(i, baseName) := Get(justifications, pKey, JString(""))];
    }
  }

  /** In `P{d}_{rest}` the first underscore follows the digits `d`. */
  lemma NumberedColumn(d: string, rest: string)
    requires IsDigits(d) && |rest| > 0
    ensures var s := "P" + d + "_" + rest;
            Find(s, "_", 0) == Some(1 + |d|) && s[1..1 + |d|] == d && s[0] == 'P' && s[|s| - 1] == rest[|rest| - 1]
  {
    var s := "P" + d + "_" + rest;
    forall k | 0 <= k < 1 + |d|
      ensures !OccursAt(s, "_", k)
    {
      assert s[k..k + 1] == [s[k]];
      if k > 0 {
        assert s[k] == d[k - 1];
      }
    }
    assert s[1 + |d|..2 + |d|] == "_";
    assert OccursAt(s, "_", 1 + |d|);
    assert s[1..1 + |d|] == d;
  }

  /** No summary column starts with "P". */
  lemma SummaryColumnsInitial(c: string)
    requires c in SummaryColumns
    ensures |c| > 0 && c[0] != 'P'
  {
  }

  /** A criterion column names its criterion's number and ends in its kind. */
  lemma ColumnShape(i: nat, base: string)
    ensures var s := ScoreColumn(i, base); Find(s, "_", 0) == Some(1 + |Decimal(i)|) && s[1..1 + |Decimal(i)|] == Decimal(i)
    ensures var s := JustificationColumn(i, base); Find(s, "_", 0) == Some(1 + |Decimal(i)|) && s[1..1 + |Decimal(i)|] == Decimal(i)
    ensures ScoreColumn(i, base)[0] == 'P' && JustificationColumn(i, base)[0] == 'P'
    ensures var s := ScoreColumn(i, base); s[|s| - 1] == 'e'
    ensures var s := JustificationColumn(i, base); s[|s| - 1] == 'n'
  {
    var d := Decimal(i);
    NumberedColumn(d, base + "_Score");
    NumberedColumn(d, base + "_Justification");
    assert ScoreColumn(i, base) == "P" + d + "_" + (base + "_Score");
    assert JustificationColumn(i, base) == "P" + d + "_" + (base + "_Justification");
  }

  /** Criterion columns of different numbers differ, whatever the criteria are called. */
  lemma ColumnsDistinct(i: nat, j: nat, bi: string, bj: string)
    ensures ScoreColumn(i, bi) == ScoreColumn(j, bj) ==> i == j
    ensures JustificationColumn(i, bi) == JustificationColumn(j, bj) ==> i == j
    ensures ScoreColumn(i, bi) != JustificationColumn(j, bj)
  {
    ColumnShape(i, bi);
    ColumnShape(j, bj);
    if ScoreColumn(i, bi) == ScoreColumn(j, bj) || JustificationColumn(i, bi) == JustificationColumn(j, bj) {
      DecimalInjective(i, j);
    }
  }

  /** No criterion column is a summary column. */
  lemma NotSummaryColumn(i: nat, base: string)
    ensures ScoreColumn(i, base) !in SummaryColumns && JustificationColumn(i, base) !in SummaryColumns
  {
    ColumnShape(i, base);
    if ScoreColumn(i, base) in SummaryColumns {
      SummaryColumnsInitial(ScoreColumn(i, base));
    }
    if JustificationColumn(i, base) in SummaryColumns {
      SummaryColumnsInitial(JustificationColumn(i, base));
    }
  }

  /** Criterion P`i`'s two columns sit at their places in the header. */
  lemma ColumnsListed(i: nat)
    requires 1 <= i <= 16
    ensures |OrderedFieldNames| == 43
    ensures OrderedFieldNames[6 + i] == ScoreColumn(i, CriteriaBaseNames[i - 1])
            && OrderedFieldNames[24 + i] == JustificationColumn(i, CriteriaBaseNames[i - 1])
  {
  }

  /** The header has 43 names; the summary columns sit first, in the middle and last. */
  lemma SummaryListed()
    ensures |OrderedFieldNames| == 43
    ensures OrderedFieldNames[..7] == IdentityColumns
    ensures OrderedFieldNames[23] == "Average_Pn_Score" && OrderedFieldNames[24] == "Overall_Likert_Score"
    ensures OrderedFieldNames[41] == "Overall_Justification" && OrderedFieldNames[42] == "Review_Timestamp"
  {
  }

  // ---------------------------------------------------------------- the row's contents

  /** `c` is one of the two columns of criterion P`i`. */
  predicate CriterionColumn(c: string, bases: seq<string>, i: nat)
  {
    1 <= i <= |bases| && (c == ScoreColumn(i, bases[i - 1]) || c == JustificationColumn(i, bases[i - 1]))
  }

  lemma {:induction false} WithCriteriaKeys(row: map<string, Json>, bases: seq<string>, scores: map<string, Json>,
                                            justifications: map<string, Json>, k: nat)
    requires k <= |bases|
    ensures forall c :: c in WithCriteria(row, bases, scores, justifications, k) <==>
              c in row || exists i: nat :: i <= k && CriterionColumn(c, bases, i)
  {
    if k > 0 {
      WithCriteriaKeys(row, bases, scores, justifications, k - 1);
      forall c
        ensures c in WithCriteria(row, bases, scores, justifications, k) <==>
                  c in row || exists i: nat :: i <= k && CriterionColumn(c, bases, i)
      {
        assert c in WithCriteria(row, bases, scores, justifications, k) <==>
                 c in WithCriteria(row, bases, scores, justifications, k - 1) || CriterionColumn(c, bases, k);
        if exists i: nat :: i <= k && CriterionColumn(c, bases, i) {
          var i: nat :| i <= k && CriterionColumn(c, bases, i);
          if i < k {
            assert exists j: nat :: j <= k - 1 && CriterionColumn(c, bases, j);
          }
        }
        if exists j: nat :: j <= k - 1 && CriterionColumn(c, bases, j) {
          var j: nat :| j <= k - 1 && CriterionColumn(c, bases, j);
          assert j <= k && CriterionColumn(c, bases, j);
        }
      }
    }
  }

  lemma {:induction false} WithCriteriaCells(row: map<string, Json>, bases: seq<string>, scores: map<string, Json>,
                                             justifications: map<string, Json>, k: nat, i: nat)
    requires 1 <= i <= k <= |bases|
    ensures var r := WithCriteria(row, bases, scores, justifications, k);
            var b := bases[i - 1];
            ScoreColumn(i, b) in r && r[ScoreColumn(i, b)] == Get(scores, PKey(i), JString(NotApplicable))
            && JustificationColumn(i, b) in r && r[JustificationColumn(i, b)] == Get(justifications, PKey(i), JString(""))
  {
    var b, bk := bases[i - 1], bases[k - 1];
    var before := WithCriteria(row, bases, scores, justifications, k - 1);
    var s, j := Get(scores, PKey(k), JString(NotApplicable)), Get(justifications, PKey(k), JString(""));
    assert WithCriteria(row, bases, scores, justifications, k) == before[ScoreColumn(k, bk) := s][JustificationColumn(k, bk) := j];
    if i < k {
      WithCriteriaCells(row, bases, scores, justifications, k - 1, i);
      ColumnsDistinct(i, k, b, bk);
      ColumnsDistinct(k, i, bk, b);
      UpdatesElsewhere(before, ScoreColumn(k, bk), s, JustificationColumn(k, bk), j, ScoreColumn(i, b));
      UpdatesElsewhere(before, ScoreColumn(k, bk), s, JustificationColumn(k, bk), j, JustificationColumn(i, b));
    } else {
      ColumnsDistinct(k, k, bk, bk);
    }
  }

  /** Two updates at other keys leave an entry as it was. */
  lemma UpdatesElsewhere(m: map<string, Json>, k1: string, v1: Json, k2: string, v2: Json, c: string)
    requires c in m && c != k1 && c != k2
    ensures c in m[k1 := v1][k2 := v2] && m[k1 := v1][k2 := v2][c] == m[c]
  {
  }

  lemma {:induction false} WithCriteriaKeeps(row: map<string, Json>, bases: seq<string>, scores: map<string, Json>,
                                             justifications: map<string, Json>, k: nat, c: string)
    requires k <= |bases| && c in row && c in SummaryColumns
    ensures var r := WithCriteria(row, bases, scores, justifications, k); c in r && r[c] == row[c]
  {
    if k > 0 {
      NotSummaryColumn(k, bases[k - 1]);
      WithCriteriaKeeps(row, bases, scores, justifications, k - 1, c);
    }
  }

  /** Every name in the header is a summary column or one of the criteria's. */
  lemma HeaderNameKinds(k: nat)
    requires k < |OrderedFieldNames|
    ensures 7 <= k < 23 ==> OrderedFieldNames[k] == ScoreColumn(k - 6, CriteriaBaseNames[k - 7])
    ensures 25 <= k < 41 ==> OrderedFieldNames[k] == JustificationColumn(k - 24, CriteriaBaseNames[k - 25])
    ensures k < 7 || k == 23 || k == 24 || k >= 41 ==> OrderedFieldNames[k] in SummaryColumns
  {
    SummaryListed();
    if 7 <= k < 23 {
      ColumnsListed(k - 6);
    } else if 25 <= k < 41 {
      ColumnsListed(k - 24);
    }
  }

  /** Every summary column is in the header. */
  lemma SummaryColumnsInHeader(c: string)
    requires c in SummaryColumns
    ensures c in OrderedFieldNames
  {
    SummaryListed();
    assert c in IdentityColumns || c in OrderedFieldNames[23..25] || c in OrderedFieldNames[41..];
  }

  lemma SummaryRowKeys(info: ReviewInfo, average: Json, scores: map<string, Json>,
                       justifications: map<string, Json>, timestamp: string)
    ensures SummaryRow(info, average, scores, justifications, timestamp).Keys == SummaryColumns
  {
  }

  /** Every key of the row is a header name. */
  lemma RowKeysInHeader(info: ReviewInfo, scores: map<string, Json>, justifications: map<string, Json>, timestamp: string)
    ensures forall c :: c in Row(info, scores, justifications, timestamp) ==> c in OrderedFieldNames
  {
    var summary := SummaryRow(info, Average(scores), scores, justifications, timestamp);
    SummaryRowKeys(info, Average(scores), scores, justifications, timestamp);
    WithCriteriaKeys(summary, CriteriaBaseNames, scores, justifications, 16);
    forall c | c in Row(info, scores, justifications, timestamp)
      ensures c in OrderedFieldNames
    {
      if c in SummaryColumns {
        SummaryColumnsInHeader(c);
      } else {
        var i: nat :| i <= 16 && CriterionColumn(c, CriteriaBaseNames, i);
        ColumnsListed(i);
        assert c == OrderedFieldNames[6 + i] || c == OrderedFieldNames[24 + i];
      }
    }
  }

  /** Every header name is a key of the row. */
  lemma HeaderInRowKeys(info: ReviewInfo, scores: map<string, Json>, justifications: map<string, Json>, timestamp: string)
    ensures forall c :: c in OrderedFieldNames ==> c in Row(info, scores, justifications, timestamp)
  {
    var summary := SummaryRow(info, Average(scores), scores, justifications, timestamp);
    SummaryRowKeys(info, Average(scores), scores, justifications, timestamp);
    WithCriteriaKeys(summary, CriteriaBaseNames, scores, justifications, 16);
    forall c | c in OrderedFieldNames
      ensures c in Row(info, scores, justifications, timestamp)
    {
      var k :| 0 <= k < |OrderedFieldNames| && OrderedFieldNames[k] == c;
      HeaderNameKinds(k);
      if 7 <= k < 23 {
        assert CriterionColumn(c, CriteriaBaseNames, k - 6);
      } else if 25 <= k < 41 {
        assert CriterionColumn(c, CriteriaBaseNames, k - 24);
      }
    }
  }

  /** The row has exactly the 43 header names as keys, so the writer neither rejects nor pads it. */
  lemma RowKeysAreHeader(info: ReviewInfo, scores: map<string, Json>, justifications: map<string, Json>, timestamp: string)
    ensures forall c :: c in Row(info, scores, justifications, timestamp) <==> c in OrderedFieldNames
  {
    RowKeysInHeader(info, scores, justifications, timestamp);
    HeaderInRowKeys(info, scores, justifications, timestamp);
  }

  /** Column P`i`'s score and justification hold the given ones, or "N/A" and "" when missing. */
  lemma RowCriterionCells(info: ReviewInfo, scores: map<string, Json>, justifications: map<string, Json>,
                          timestamp: string, i: nat)
    requires 1 <= i <= 16
    ensures var row := Row(info, scores, justifications, timestamp);
            var b := CriteriaBaseNames[i - 1];
            ScoreColumn(i, b) in row && row[ScoreColumn(i, b)] == Get(scores, PKey(i), JString(NotApplicable))
            && JustificationColumn(i, b) in row && row[JustificationColumn(i, b)] == Get(justifications, PKey(i), JString(""))
  {
    WithCriteriaCells(SummaryRow(info, Average(scores), scores, justifications, timestamp), CriteriaBaseNames,
                      scores, justifications, 16, i);
  }

  /** The criteria leave the summary columns as they were set. */
  lemma RowKeepsSummary(info: ReviewInfo, scores: map<string, Json>, justifications: map<string, Json>, timestamp: string)
    ensures var summary := SummaryRow(info, Average(scores), scores, justifications, timestamp);
            var row := Row(info, scores, justifications, timestamp);
            forall c :: c in SummaryColumns ==> c in row && c in summary && row[c] == summary[c]
  {
    var summary := SummaryRow(info, Average(scores), scores, justifications, timestamp);
    SummaryRowKeys(info, Average(scores), scores, justifications, timestamp);
    forall c | c in SummaryColumns
      ensures c in Row(info, scores, justifications, timestamp) && c in summary
      ensures Row(info, scores, justifications, timestamp)[c] == summary[c]
    {
      WithCriteriaKeeps(summary, CriteriaBaseNames, scores, justifications, 16, c);
    }
  }

  /** The average and the overall score and justification, with their defaults. */
  lemma RowSummaryCells(info: ReviewInfo, scores: map<string, Json>, justifications: map<string, Json>, timestamp: string)
    ensures var row := Row(info, scores, justifications, timestamp);
            "Average_Pn_Score" in row && row["Average_Pn_Score"] == Average(scores)
            && "Overall_Likert_Score" in row && row["Overall_Likert_Score"] == Get(scores, "Overall", JString(NotApplicable))
            && "Overall_Justification" in row && row["Overall_Justification"] == Get(justifications, "Overall", JString(""))
            && "Review_Timestamp" in row && row["Review_Timestamp"] == JString(timestamp)
  {
    RowKeepsSummary(info, scores, justifications, timestamp);
  }

  // ---------------------------------------------------------------- the CSV file

  /** Where a review goes: `{provider}_{model}/{brand}_{type}.csv` under the base path, spaces in the file name made "_". */
  function ReviewDirectory(basePath: string, info: ReviewInfo): string
  {
    PathJoin(basePath, info.reviewerProvider + "_" + info.reviewerModel)
  }

  function SensorFileName(info: ReviewInfo): string
  {
    Replace(info.sensorBrand + "_" + info.sensorType + ".csv", " ", "_")
  }

  function CsvPath(basePath: string, info: ReviewInfo): string
  {
    PathJoin(ReviewDirectory(basePath, info), SensorFileName(info))
  }

  /** The file name has no space, ends in ".csv" and is brand and type with their spaces made "_". */
  lemma SensorFileNameShape(info: ReviewInfo)
    ensures var name := SensorFileName(info);
            NoChar(name, ' ') && EndsWith(name, ".csv") && |name| == |info.sensorBrand| + |info.sensorType| + 5
            && name == Replace(info.sensorBrand, " ", "_") + "_" + Replace(info.sensorType, " ", "_") + ".csv"
  {
    var b, t := info.sensorBrand, info.sensorType;
    ReplaceCharAppend(b + "_" + t, ".csv", ' ', "_");
    ReplaceCharAppend(b + "_", t, ' ', "_");
    ReplaceCharAppend(b, "_", ' ', "_");
    NoCharNoOccurrence(".csv", ' ');
    ReplaceAbsent(".csv", " ", "_");
    NoCharNoOccurrence("_", ' ');
    ReplaceAbsent("_", " ", "_");
    ReplaceCharGone(b + "_" + t + ".csv", ' ', "_");
    var name := SensorFileName(info);
    assert name[|name| - 4..] == ".csv";
  }

  /** Unless the brand starts with "/", the file lands inside the reviewer's directory. */
  lemma CsvPathInReviewDirectory(basePath: string, info: ReviewInfo)
    requires !StartsWith(info.sensorBrand, "/")
    ensures StartsWith(CsvPath(basePath, info), ReviewDirectory(basePath, info))
    ensures EndsWith(CsvPath(basePath, info), SensorFileName(info))
  {
    SensorFileNameShape(info);
    var dir, name := ReviewDirectory(basePath, info), SensorFileName(info);
    if |info.sensorBrand| > 0 {
      assert name[0] == Replace(info.sensorBrand, " ", "_")[0];
      ReplaceHead(info.sensorBrand);
    } else {
      assert name[0] == '_';
    }
    assert !StartsWith(name, "/");
    var p := CsvPath(basePath, info);
    assert p[..|dir|] == dir;
    assert p[|p| - |name|..] == name;
  }

  /** Replacing spaces changes a leading space and keeps any other first character. */
  lemma ReplaceHead(s: string)
    requires |s| > 0
    ensures |Replace(s, " ", "_")| > 0 && Replace(s, " ", "_")[0] == (if s[0] == ' ' then '_' else s[0])
  {
    assert s[..1] == [s[0]];
  }

  /** A line of a review CSV file. */
  datatype CsvLine = Header(names: seq<string>) | Record(cells: seq<Json>)

  /** csv.DictWriter.writerow: the row's values in header order, "" for a name the row lacks. */
  function WrittenCells(row: map<string, Json>): seq<Json>
  {
    seq(|OrderedFieldNames|, k requires 0 <= k < |OrderedFieldNames| => Get(row, OrderedFieldNames[k], JString("")))
  }

  /** The written record carries each criterion's score and justification at its header place. */
  lemma RecordCells(info: ReviewInfo, scores: map<string, Json>, justifications: map<string, Json>,
                    timestamp: string, i: nat)
    requires 1 <= i <= 16
    ensures var cells := WrittenCells(Row(info, scores, justifications, timestamp));
            |cells| == 43
            && cells[6 + i] == Get(scores, PKey(i), JString(NotApplicable))
            && cells[24 + i] == Get(justifications, PKey(i), JString(""))
            && cells[23] == Average(scores)
            && cells[24] == Get(scores, "Overall", JString(NotApplicable))
  {
    var row := Row(info, scores, justifications, timestamp);
    SummaryListed();
    ColumnsListed(i);
    RowCriterionCells(info, scores, justifications, timestamp, i);
    RowSummaryCells(info, scores, justifications, timestamp);
    WrittenAt(row, 6 + i);
    WrittenAt(row, 24 + i);
    WrittenAt(row, 23);
    WrittenAt(row, 24);
  }

  /** A column the row holds is written at its header place. */
  lemma WrittenAt(row: map<string, Json>, k: nat)
    requires k < |OrderedFieldNames| && OrderedFieldNames[k] in row
    ensures |WrittenCells(row)| == |OrderedFieldNames| && WrittenCells(row)[k] == row[OrderedFieldNames[k]]
  {
  }

  /** The file after one review: a new file gets the header first, an existing one only the record. */
  function Appended(existing: Option<seq<CsvLine>>, row: map<string, Json>): seq<CsvLine>
  {
    match existing
    case None => [Header(OrderedFieldNames), Record(WrittenCells(row))]
    case Some(lines) => lines + [Record(WrittenCells(row))]
  }

  /** A review file: the header once, then one full record per review. */
  predicate WellFormed(lines: seq<CsvLine>)
  {
    |lines| >= 1 && lines[0] == Header(OrderedFieldNames)
    && forall k :: 1 <= k < |lines| ==> lines[k].Record? && |lines[k].cells| == |OrderedFieldNames|
  }

  function Records(lines: seq<CsvLine>): nat
  {
    if |lines| == 0 then 0 else Records(lines[..|lines| - 1]) + (if lines[|lines| - 1].Record? then 1 else 0)
  }

  function Headers(lines: seq<CsvLine>): nat
  {
    if |lines| == 0 then 0 else Headers(lines[..|lines| - 1]) + (if lines[|lines| - 1].Header? then 1 else 0)
  }

  /**
   * Each review adds exactly one record, at the end; the header is written only into a
   * file that did not exist, and a well-formed file stays well-formed.
   */
  lemma AppendedOneRecord(existing: Option<seq<CsvLine>>, row: map<string, Json>)
    ensures var after := Appended(existing, row);
            var before := if existing.Some? then existing.value else [];
            after[..|after| - 1] == before + (if existing.None? then [Header(OrderedFieldNames)] else [])
            && after[|after| - 1] == Record(WrittenCells(row))
            && Records(after) == Records(before) + 1
            && Headers(after) == Headers(before) + (if existing.None? then 1 else 0)
    ensures existing.None? || WellFormed(existing.value) ==> WellFormed(Appended(existing, row))
  {
    var after := Appended(existing, row);
    if existing.None? {
      assert after[..1] == [Header(OrderedFieldNames)];
      assert after[..1][..0] == [];
    } else {
      assert after[..|after| - 1] == existing.value;
    }
  }

  /**
   * The logger: a base directory and the review files under it, by path. Creating
   * directories is not modelled; a file is there once a review has been logged to it.
   */
  class ReviewScoreLogger {
    var basePath: string
    var files: map<string, seq<CsvLine>>

    /**
     * Files already on disk may hold anything, so the logger is valid from the start only
     * when the files it is given are well-formed (for instance, when there are none yet).
     */
    constructor(basePath: string, files: map<string, seq<CsvLine>>)
      ensures this.basePath == basePath && this.files == files
      ensures (forall p :: p in files ==> WellFormed(files[p])) ==> Valid()
    {
      this.basePath := basePath;
      this.files := files;
    }

    /** Every review file the logger knows is well-formed. */
    predicate Valid()
      reads this
    {
      forall p :: p in files ==> WellFormed(files[p])
    }

    /** log_review: build the row and append it to the sensor's file, with a header if the file is new. */
    method LogReview(info: ReviewInfo, scores: map<string, Json>, justifications: map<string, Json>,
                     timestamp: string) returns (csvPath: string)
      modifies this
      ensures csvPath == CsvPath(basePath, info) && basePath == old(basePath)
      ensures files == old(files)[csvPath :=
                Appended(if csvPath in old(files) then Some(old(files)[csvPath]) else None,
                         Row(info, scores, justifications, timestamp))]
      ensures old(Valid()) ==> Valid()
    {
      var reviewDir := PathJoin(basePath, info.reviewerProvider + "_" + info.reviewerModel);
      var sensorFileName := Replace(info.sensorBrand + "_" + info.sensorType + ".csv", " ", "_");
      csvPath := PathJoin(reviewDir, sensorFileName);
      var fileExists := csvPath in files;
      var row := BuildRow(info, scores, justifications, timestamp);
      var lines: seq<CsvLine>;
      if fileExists {
        lines := files[csvPath];
      } else {
        lines := [Header(OrderedFieldNames)];
      }
      lines := lines + [Record(WrittenCells(row))];
      assert lines == Appended(if fileExists then Some(files[csvPath]) else None, row);
      AppendedOneRecord(if fileExists then Some(files[csvPath]) else None, row);
      files := files[csvPath := lines];
    }
  }
}
