/**
 * The chunked reviewer: a review is asked for in three parts (P1-P6; P7-P11; P12-P16 with
 * the overall verdict), each part's reply is cut down to its JSON, decoded and validated
 * against that chunk's schema, and the three records are merged into one complete review,
 * which is validated again.
 *
 * The file system is a map from path to contents, the review client a function from
 * (model, prompt) to the response or the text of the exception it raised, `json.loads`
 * a parser passed in, and `str(response)` a function passed in.
 */
module ChunkedReview {
  import opened Wrappers
  import opened JsonValue
  import opened Text
  import opened ReviewModels

  // ---------------------------------------------------------------- extracting the JSON

  const JsonFence := "```json"
  const Fence := "```"

  /** Where the text after the first "```json" begins. */
  function FenceStart(s: string): (start: nat)
    requires Contains(s, JsonFence)
    ensures start <= |s| && OccursAt(s, JsonFence, start - |JsonFence|)
  {
    Find(s, JsonFence, 0).value + |JsonFence|
  }

  /**
   * The fenced slice as the code takes it: up to the next "```", or, when there is none,
   * `text[start:-1]` (find's -1 used as a slice bound), which drops the last character.
   */
  function FencedSliceAsWritten(s: string): string
    requires Contains(s, JsonFence)
  {
    var start := FenceStart(s);
    match Find(s, Fence, start)
    case Some(e) => s[start..e]
    case None => if start <= |s| - 1 then s[start..|s| - 1] else ""
  }

  /** The fenced slice as evidently intended: up to the next "```", or to the end of the text. */
  function FencedSlice(s: string): string
    requires Contains(s, JsonFence)
  {
    var start := FenceStart(s);
    match Find(s, Fence, start)
    case Some(e) => s[start..e]
    case None => s[start..]
  }

  /** Unfenced text: drop what precedes the first '{' and what follows the last '}'. */
  function BraceTrim(c: string): string
  {
    TrimAfterLastBrace(TrimBeforeFirstBrace(c))
  }

  /** The text from its first '{' on, or all of it when it starts with or lacks one. */
  function TrimBeforeFirstBrace(c: string): string
  {
    if StartsWith(c, "{") then c
    else match Find(c, "{", 0) case Some(i) => c[i..] case None => c
  }

  /** The text up to its last '}', or all of it when it ends with or lacks one. */
  function TrimAfterLastBrace(front: string): string
  {
    if EndsWith(front, "}") then front
    else match RFindChar(front, '}') case Some(j) => front[..j + 1] case None => front
  }

  /** The text handed to json.loads, as the code computes it. */
  function CandidateAsWritten(s: string): string
  {
    if Contains(s, JsonFence) then Strip(FencedSliceAsWritten(s)) else BraceTrim(Strip(s))
  }

  /** The text handed to json.loads, with an unclosed fence read to the end. */
  function Candidate(s: string): string
  {
    if Contains(s, JsonFence) then Strip(FencedSlice(s)) else BraceTrim(Strip(s))
  }

  /**
   * extract_json_from_response: the decoded value, or None when the response text is not
   * a string (the `in` test or `strip` raises) or does not decode. The candidate is the one
   * the code computes, so an unclosed fence loses its last character here too.
   */
  function ExtractJsonFromResponse(text: Json, parse: Parser): (v: Option<Json>)
    ensures !text.JString? ==> v.None?
    ensures v.Some? ==> parse(CandidateAsWritten(text.s)) == Success(v.value)
  {
    match text
    case JString(s) => (match parse(CandidateAsWritten(s)) case Success(v) => Some(v) case Failure(_) => None)
    case _ => None
  }

  /** A reply opening with a closed ```json fence is decoded from the fenced body alone, whatever follows it. */
  lemma ExtractClosedFence(body: string, rest: string, parse: Parser)
    requires NoChar(body, '`')
    ensures ExtractJsonFromResponse(JString(JsonFence + body + Fence + rest), parse)
            == (match parse(Strip(body)) case Success(v) => Some(v) case Failure(_) => None)
  {
    FenceRoundTrip(body, rest);
  }

  /** The two candidates differ only for a ```json fence that is never closed. */
  lemma CandidatesAgreeUnlessUnclosed(s: string)
    requires !Contains(s, JsonFence) || Find(s, Fence, FenceStart(s)).Some?
    ensures CandidateAsWritten(s) == Candidate(s)
  {
  }

  /**
   * A reply whose ```json fence is never closed is decoded without its last character:
   * the extraction succeeds exactly when that shortened body decodes.
   */
  lemma ExtractUnclosedFence(body: string, parse: Parser)
    requires NoChar(body, '`') && |body| > 0
    ensures ExtractJsonFromResponse(JString(JsonFence + body), parse).Some?
            <==> parse(Strip(body[..|body| - 1])).Success?
  {
    UnclosedFence(body);
  }

  /** A fence with no backquote inside and a closing fence is cut exactly at its two ends. */
  lemma FenceRoundTrip(body: string, rest: string)
    requires NoChar(body, '`')
    ensures Contains(JsonFence + body + Fence + rest, JsonFence)
    ensures FencedSlice(JsonFence + body + Fence + rest) == body
    ensures FencedSliceAsWritten(JsonFence + body + Fence + rest) == body
  {
    var s := JsonFence + body + Fence + rest;
    assert OccursAt(s, JsonFence, 0);
    var e := |JsonFence| + |body|;
    assert s[e..e + |Fence|] == Fence;
    ClosingFence(s, body, e);
    assert s[|JsonFence|..e] == body;
  }

  /** The first "```" after the opener of `JsonFence + body + ...` is the one right after `body`. */
  lemma ClosingFence(s: string, body: string, e: nat)
    requires NoChar(body, '`') && StartsWith(s, JsonFence + body) && e == |JsonFence| + |body|
    requires OccursAt(s, Fence, e)
    ensures Find(s, JsonFence, 0) == Some(0)
    ensures Find(s, Fence, |JsonFence|) == Some(e)
  {
    assert s[..|JsonFence|] == (JsonFence + body)[..|JsonFence|];
    assert OccursAt(s, JsonFence, 0);
    forall k | |JsonFence| <= k < e
      ensures !OccursAt(s, Fence, k)
    {
      assert s[k] == (JsonFence + body)[k] == body[k - |JsonFence|];
      if k + |Fence| <= |s| {
        assert s[k..k + |Fence|][0] == s[k];
      }
    }
  }

  /**
   * With no closing fence the intended slice runs to the end of the text, while the code
   * as written loses the last character.
   */
  lemma UnclosedFence(body: string)
    requires NoChar(body, '`')
    ensures Contains(JsonFence + body, JsonFence)
    ensures FencedSlice(JsonFence + body) == body
    ensures |body| > 0 ==> FencedSliceAsWritten(JsonFence + body) == body[..|body| - 1]
  {
    var s := JsonFence + body;
    assert OccursAt(s, JsonFence, 0);
    assert Find(s, JsonFence, 0) == Some(0);
    forall k | |JsonFence| <= k
      ensures !OccursAt(s, Fence, k)
    {
      if k + |Fence| <= |s| {
        assert s[k] == body[k - |JsonFence|];
        assert s[k..k + |Fence|][0] == s[k];
      }
    }
    assert s[|JsonFence|..] == body;
    if |body| > 0 {
      assert s[|JsonFence|..|s| - 1] == body[..|body| - 1];
    }
  }

  /** The smallest case: "```json{}" gives "{" as written, "{}" as intended. */
  lemma UnclosedFenceExample()
    ensures FencedSliceAsWritten("```json{}") == "{"
    ensures FencedSlice("```json{}") == "{}"
  {
    assert JsonFence + "{}" == "```json{}";
    UnclosedFence("{}");
  }

  /** Prose before the first '{' and after the last '}' is cut off, and nothing else. */
  lemma ProseAroundObject(a: string, m: string, b: string)
    requires NoChar(a, '{') && NoChar(b, '}')
    ensures BraceTrim(a + "{" + m + "}" + b) == "{" + m + "}"
  {
    var c := a + "{" + m + "}" + b;
    var front := "{" + m + "}" + b;
    assert c == a + front;
    ProseBeforeObject(a, front);
    ProseAfterObject(m, b);
  }

  /** The front trim of BraceTrim drops exactly the brace-free prose before the object. */
  lemma ProseBeforeObject(a: string, front: string)
    requires NoChar(a, '{') && |front| > 0 && front[0] == '{'
    ensures TrimBeforeFirstBrace(a + front) == front
  {
    var c := a + front;
    assert c[|a|] == '{';
    assert OccursAt(c, "{", |a|);
    forall k | 0 <= k < |a|
      ensures !OccursAt(c, "{", k)
    {
      assert c[k] == a[k];
      assert c[k..k + 1][0] == c[k];
    }
    assert Find(c, "{", 0) == Some(|a|);
    assert c[|a|..] == front;
    if |a| == 0 {
      assert c == front;
    } else {
      assert c[0] == a[0] != '{';
      assert c[..1] != "{";
    }
  }

  /** The back trim of BraceTrim drops exactly the brace-free prose after the object. */
  lemma ProseAfterObject(m: string, b: string)
    requires NoChar(b, '}')
    ensures TrimAfterLastBrace("{" + m + "}" + b) == "{" + m + "}"
  {
    var front := "{" + m + "}" + b;
    var j := 1 + |m|;
    assert front[j] == '}';
    forall k | j < k < |front|
      ensures front[k] != '}'
    {
      assert front[k] == b[k - j - 1];
    }
    assert RFindChar(front, '}') == Some(j);
    assert front[..j + 1] == "{" + m + "}";
    if |b| > 0 {
      assert front[|front| - 1] == b[|b| - 1];
      assert front[|front| - 1..][0] == front[|front| - 1];
      assert !EndsWith(front, "}");
    } else {
      assert front == "{" + m + "}";
    }
  }

  /** Whatever the trimming does, it keeps one contiguous piece of the text. */
  lemma BraceTrimIsSlice(c: string)
    ensures exists i, j :: 0 <= i <= j <= |c| && BraceTrim(c) == c[i..j]
  {
    var front := TrimBeforeFirstBrace(c);
    var i := |c| - |front|;
    assert front == c[i..|c|];
    var r := BraceTrim(c);
    if r == front {
      assert r == c[i..|c|];
    } else {
      var j :| 0 <= j < |front| && r == front[..j + 1];
      assert r == c[i..i + j + 1];
    }
  }

  // ---------------------------------------------------------------- one chunk

  /** The review client's send_request: the response, or the text of what it raised. */
  type Client = (string, string) -> Result<Json, string>

  /** The response's "text" entry when it is a dict holding one, else `str(response)`. */
  function ResponseText(response: Json, show: Json -> string): (t: Json)
    ensures Field(response, "text").Some? ==> Field(response, "text") == Some(t)
    ensures Field(response, "text").None? ==> t == JString(show(response))
  {
    match Field(response, "text")
    case Some(t) => t
    case None => JString(show(response))
  }

  /**
   * process_review_chunk: send the prompt, extract and decode the JSON, reject a falsy
   * value, validate against the chunk's schema. Every failure, raised or not, gives None,
   * and so does a chunk number other than 1, 2 or 3.
   */
  function ProcessReviewChunk(n: int, client: Client, modelId: string, prompt: string,
                              show: Json -> string, parse: Parser): (r: Option<Record>)
    ensures r.Some? ==> 1 <= n <= 3 && IsRecord(ChunkSchema(n), r.value)
  {
    match client(modelId, prompt)
    case Failure(_) => None
    case Success(response) =>
      match ExtractJsonFromResponse(ResponseText(response, show), parse)
      case None => None
      case Some(data) => AcceptChunk(n, data)
  }

  /** The tail of process_review_chunk: refuse a falsy value, then validate against the chunk's schema. */
  function AcceptChunk(n: int, data: Json): (r: Option<Record>)
    ensures r.Some? ==> 1 <= n <= 3 && IsRecord(ChunkSchema(n), r.value)
  {
    if !Truthy(data) || !(1 <= n <= 3) then None
    else
      var r := ValidateChunk(n, data);
      if r.Some? then ValidateGivesRecord(ChunkSchema(n), Dict(data.members)); r else r
  }

  /**
   * A chunk is accepted exactly when the reply decodes to a dict whose entries, looked up
   * by field name, pass the chunk's schema; the record then holds the decoded values.
   */
  lemma ProcessReviewChunkIff(n: int, client: Client, modelId: string, prompt: string,
                              show: Json -> string, parse: Parser)
    requires 1 <= n <= 3
    ensures var r := ProcessReviewChunk(n, client, modelId, prompt, show, parse);
            r.Some? <==>
              && client(modelId, prompt).Success?
              && var data := ExtractJsonFromResponse(ResponseText(client(modelId, prompt).value, show), parse);
              && data.Some? && data.value.JObject?
              && Conforms(ChunkSchema(n), Dict(data.value.members))
    ensures var r := ProcessReviewChunk(n, client, modelId, prompt, show, parse);
            r.Some? ==>
              var data := ExtractJsonFromResponse(ResponseText(client(modelId, prompt).value, show), parse);
              forall f :: f in ChunkSchema(n) ==> Field(data.value, f) == Some(ToJson(r.value[f]))
  {
    if client(modelId, prompt).Success? {
      var data := ExtractJsonFromResponse(ResponseText(client(modelId, prompt).value, show), parse);
      if data.Some? {
        AcceptChunkIff(n, data.value);
      }
    }
  }

  /** A decoded value is accepted exactly when it is a dict that passes the schema, and its values are kept. */
  lemma AcceptChunkIff(n: int, data: Json)
    requires 1 <= n <= 3
    ensures AcceptChunk(n, data).Some? <==> data.JObject? && Conforms(ChunkSchema(n), Dict(data.members))
    ensures AcceptChunk(n, data).Some? ==>
              forall f :: f in ChunkSchema(n) ==> Field(data, f) == Some(ToJson(AcceptChunk(n, data).value[f]))
  {
    if data.JObject? && Conforms(ChunkSchema(n), Dict(data.members)) {
      ConformingIsTruthy(n, data.members);
    }
    if AcceptChunk(n, data).Some? {
      AcceptChunkKeeps(n, data);
    }
  }

  /** A dict that passes a chunk schema has at least the sensor name, so it is not falsy. */
  lemma ConformingIsTruthy(n: int, members: seq<(string, Json)>)
    requires 1 <= n <= 3 && Conforms(ChunkSchema(n), Dict(members))
    ensures Truthy(JObject(members))
  {
    ChunkFields(n, SensorField);
    assert Lookup(members, SensorField).Some?;
  }

  lemma AcceptChunkKeeps(n: int, data: Json)
    requires 1 <= n <= 3 && AcceptChunk(n, data).Some?
    ensures data.JObject?
    ensures forall f :: f in ChunkSchema(n) ==> Field(data, f) == Some(ToJson(AcceptChunk(n, data).value[f]))
  {
    var d := Dict(data.members);
    var r := AcceptChunk(n, data).value;
    forall f | f in ChunkSchema(n)
      ensures Field(data, f) == Some(ToJson(r[f]))
    {
      AcceptKeepsValue(ChunkSchema(n)[f], d[f]);
    }
  }



  // ---------------------------------------------------------------- combining

  /** The three chunk records, each of its own schema. */
  predicate ChunkRecords(c1: Record, c2: Record, c3: Record)
  {
    IsRecord(ChunkSchema(1), c1) && IsRecord(ChunkSchema(2), c2) && IsRecord(ChunkSchema(3), c3)
  }

  /** The chunk a field of the complete review is taken from: the first that has it. */
  function Home(f: string): (n: int)
    requires f in CompleteSchema()
    ensures 1 <= n <= 3 && f in ChunkSchema(n)
    ensures n == 1 <==> f in ChunkSchema(1)
  {
    CompleteIsUnion();
    assert f in ChunkSchema(1).Keys + ChunkSchema(2).Keys + ChunkSchema(3).Keys;
    ChunkFields(1, SensorField);
    if f in ChunkSchema(1) then 1 else if f in ChunkSchema(2) then 2 else 3
  }

  /** The value combine_chunks copies into field `f`. */
  function Pick(c1: Record, c2: Record, c3: Record, f: string): Value
    requires ChunkRecords(c1, c2, c3) && f in CompleteSchema()
  {
    var n := Home(f);
    if n == 1 then c1[f] else if n == 2 then c2[f] else c3[f]
  }

  /** combined_data: every field of the complete review, filled from the chunk that holds it. */
  function Combined(c1: Record, c2: Record, c3: Record): (data: map<string, Json>)
    requires ChunkRecords(c1, c2, c3)
    ensures data.Keys == CompleteSchema().Keys
  {
    map f | f in CompleteSchema() :: ToJson(Pick(c1, c2, c3, f))
  }

  /** combine_chunks: CompleteReview(**combined_data), or None where it raises. */
  function CombineChunks(c1: Record, c2: Record, c3: Record): (review: Option<Record>)
    requires ChunkRecords(c1, c2, c3)
    ensures review.Some? ==> review.value.Keys == CompleteSchema().Keys
  {
    Validate(CompleteSchema(), Combined(c1, c2, c3))
  }

  /** The value the complete review's P`i` score is taken from. */
  function Score(c1: Record, c2: Record, c3: Record, i: nat): Value
    requires ChunkRecords(c1, c2, c3) && 1 <= i <= 16
  {
    CompleteScoresChecked(i, 1);
    Pick(c1, c2, c3, ScoreField(i))
  }

  /** A score an integer outside 1..5 would spoil: the complete review's check. */
  predicate ScoreInRange(x: Value)
  {
    x.Num? ==> InLikertRange(x.n)
  }

  /** A chunk value passes the complete review's kind of its field unless it is an out-of-range score. */
  lemma MergedAccepts(k: Kind, x: Value)
    requires Fits(k, x)
    ensures Accept(Merged(k), ToJson(x)).Some? <==> (k != ScoreKind || ScoreInRange(x))
    ensures Accept(Merged(k), ToJson(x)).Some? ==> Accept(Merged(k), ToJson(x)) == Some(x)
  {
  }

  /** Only the numbered score fields have the unchecked score kind in a chunk. */
  lemma {:induction false} ScoreKindFields(n: int, f: string)
    requires 1 <= n <= 3 && f in ChunkSchema(n) && ChunkSchema(n)[f] == ScoreKind
    ensures exists i :: 1 <= i <= 16 && f == ScoreField(i)
  {
    ChunkFields(n, f);
    if f !in NamedFields {
      var i: nat :| (n == 1 ==> 1 <= i <= 6) && (n == 2 ==> 7 <= i <= 11) && (n == 3 ==> 12 <= i <= 16)
                    && IsCriterionField(f, i);
      FieldNamesDistinct(i, i);
      if n == 1 {
        CriteriaKinds(1, 6, ScoreKind, i);
      } else if n == 2 {
        CriteriaKinds(7, 11, ScoreKind, i);
      } else {
        CriteriaKinds(12, 16, ScoreKind, i);
      }
      assert f == ScoreField(i);
    }
  }

  /** Each numbered score field has the unchecked score kind in the chunk it comes from. */
  lemma ScoreFieldKind(i: nat)
    requires 1 <= i <= 16
    ensures ScoreField(i) in CompleteSchema()
    ensures ChunkSchema(Home(ScoreField(i)))[ScoreField(i)] == ScoreKind
  {
    CompleteScoresChecked(i, 3);
    CompleteScoresChecked(i, 6);
    FieldNamesDistinct(i, i);
    ChunksDisjoint(1, 2);
    ChunksDisjoint(1, 3);
    ChunksDisjoint(2, 3);
    var n := if i <= 6 then 1 else if i <= 11 then 2 else 3;
    ChunkScoresUnchecked(n, i, 6);
    assert Home(ScoreField(i)) == n;
    CompleteKinds(n, ScoreField(i));
  }

  /**
   * The merge is refused exactly when some P1..P16 score is an integer outside 1..5: the
   * chunks accept any integer, the complete review does not.
   */
  lemma CombineSucceedsIff(c1: Record, c2: Record, c3: Record)
    requires ChunkRecords(c1, c2, c3)
    ensures CombineChunks(c1, c2, c3).Some? <==>
              forall i :: 1 <= i <= 16 ==> ScoreInRange(Score(c1, c2, c3, i))
  {
    if forall i :: 1 <= i <= 16 ==> ScoreInRange(Score(c1, c2, c3, i)) {
      CombineAcceptsInRange(c1, c2, c3);
    } else {
      var i :| 1 <= i <= 16 && !ScoreInRange(Score(c1, c2, c3, i));
      CombineRefusesOutOfRange(c1, c2, c3, i);
    }
  }

  /** With every score in range, every field of the merged data passes the complete review. */
  lemma CombineAcceptsInRange(c1: Record, c2: Record, c3: Record)
    requires ChunkRecords(c1, c2, c3)
    requires forall i :: 1 <= i <= 16 ==> ScoreInRange(Score(c1, c2, c3, i))
    ensures CombineChunks(c1, c2, c3).Some?
  {
    forall f | f in CompleteSchema()
      ensures Accept(CompleteSchema()[f], ToJson(Pick(c1, c2, c3, f))).Some?
    {
      FieldAcceptedInRange(c1, c2, c3, f);
    }
    assert Conforms(CompleteSchema(), Combined(c1, c2, c3));
  }

  lemma FieldAcceptedInRange(c1: Record, c2: Record, c3: Record, f: string)
    requires ChunkRecords(c1, c2, c3) && f in CompleteSchema()
    requires forall i :: 1 <= i <= 16 ==> ScoreInRange(Score(c1, c2, c3, i))
    ensures Accept(CompleteSchema()[f], ToJson(Pick(c1, c2, c3, f))).Some?
  {
    var n := Home(f);
    CompleteKinds(n, f);
    var k := ChunkSchema(n)[f];
    var x := Pick(c1, c2, c3, f);
    assert Fits(k, x);
    MergedAccepts(k, x);
    if k == ScoreKind {
      ScoreKindFields(n, f);
      var i :| 1 <= i <= 16 && f == ScoreField(i);
      assert Score(c1, c2, c3, i) == x;
    }
  }

  /** One score out of range is enough for the complete review to refuse the merged data. */
  lemma CombineRefusesOutOfRange(c1: Record, c2: Record, c3: Record, i: nat)
    requires ChunkRecords(c1, c2, c3) && 1 <= i <= 16 && !ScoreInRange(Score(c1, c2, c3, i))
    ensures CombineChunks(c1, c2, c3).None?
  {
    var f := ScoreField(i);
    ScoreFieldKind(i);
    var n := Home(f);
    CompleteKinds(n, f);
    MergedAccepts(ScoreKind, Pick(c1, c2, c3, f));
    assert !Conforms(CompleteSchema(), Combined(c1, c2, c3));
  }

  /** The complete review holds each chunk's values unchanged, the sensor name from chunk 1. */
  lemma {:induction false} CombineKeepsValues(c1: Record, c2: Record, c3: Record, n: int, f: string)
    requires ChunkRecords(c1, c2, c3) && CombineChunks(c1, c2, c3).Some?
    requires 1 <= n <= 3 && f in ChunkSchema(n) && (f == SensorField ==> n == 1)
    ensures f in CombineChunks(c1, c2, c3).value
    ensures CombineChunks(c1, c2, c3).value[f] == (if n == 1 then c1[f] else if n == 2 then c2[f] else c3[f])
  {
    CompleteKinds(n, f);
    var h := Home(f);
    ChunksDisjoint(1, 2);
    ChunksDisjoint(1, 3);
    ChunksDisjoint(2, 3);
    ChunkFields(1, SensorField);
    assert f in ChunkSchema(h).Keys * ChunkSchema(n).Keys;
    assert h == n;
    var x := Pick(c1, c2, c3, f);
    CompleteKinds(h, f);
    MergedAccepts(ChunkSchema(h)[f], x);
  }

  // ---------------------------------------------------------------- prompts

  const BrandPlaceholder := "{{SENSOR_BRAND}}"
  const ModelPlaceholder := "{{SENSOR_MODEL}}"
  const GeneratedPlaceholder := "{{generated_datasheet}}"
  const OfficialPlaceholder := "{{official_datasheet}}"

  /** The four placeholder replacements, in the order the code makes them. */
  function Fill(template: string, brand: string, model: string, generated: string, official: string): string
  {
    var p := Replace(template, BrandPlaceholder, brand);
    var p := Replace(p, ModelPlaceholder, model);
    var p := Replace(p, GeneratedPlaceholder, generated);
    Replace(p, OfficialPlaceholder, official)
  }

  /** The response-format instructions appended for chunks 1, 2 and 3. */
  datatype Formats = Formats(chunk1: string, chunk2: string, chunk3: string)

  /** The reviewer: the template path may be missing; the reviews directory has a default. */
  datatype Reviewer = Reviewer(basePromptPath: Option<string>, reviewsPath: string, formats: Formats)

  /** The configuration keys of the template path and the reviews directory. */
  const TemplatePathKey := "review_prompt_template_path"
  const ReviewsPathKey := "reviews_base_path"
  const DefaultReviewsPath := "results/reviews/"

  /** The instruction texts the code appends for chunks 1, 2 and 3. */
  const CodeFormats := Formats(Chunk1Instructions, Chunk2Instructions, Chunk3Instructions)

  /** The reviewer a configuration gives, with the instruction texts the code carries. */
  function NewReviewer(config: map<string, string>): (r: Reviewer)
    ensures r.basePromptPath.None? <==> TemplatePathKey !in config
    ensures r.basePromptPath.Some? ==> r.basePromptPath.value == config[TemplatePathKey]
    ensures ReviewsPathKey !in config ==> r.reviewsPath == DefaultReviewsPath
    ensures r.formats == CodeFormats
  {
    Reviewer(if TemplatePathKey in config then Some(config[TemplatePathKey]) else None,
             if ReviewsPathKey in config then config[ReviewsPathKey] else DefaultReviewsPath,
             CodeFormats)
  }

  function Instructions(f: Formats, n: int): string
    requires 1 <= n <= 3
  {
    if n == 1 then f.chunk1 else if n == 2 then f.chunk2 else f.chunk3
  }

  /** The filled template, followed by the chunk's instructions; any other number gets none. */
  function ChunkPrompt(f: Formats, n: int, template: string, brand: string, model: string, generated: string,
                       official: string): string
  {
    var p := Fill(template, brand, model, generated, official);
    if 1 <= n <= 3 then p + Instructions(f, n) else p
  }

  /** Files on disk: path to contents. */
  type Files = map<string, string>

  /** create_chunk_prompt: None where reading the template raises (no path, or no such file). */
  function CreateChunkPrompt(r: Reviewer, files: Files, n: int, brand: string, model: string,
                             generated: string, official: string): (prompt: Option<string>)
    ensures prompt.None? <==> r.basePromptPath.None? || r.basePromptPath.value !in files
    ensures prompt.Some? ==>
              prompt.value == ChunkPrompt(r.formats, n, files[r.basePromptPath.value], brand, model, generated, official)
  {
    match r.basePromptPath
    case None => None
    case Some(path) =>
      if path in files then Some(ChunkPrompt(r.formats, n, files[path], brand, model, generated, official)) else None
  }

  /** A pattern that opens with '{' cannot occur in a text without one. */
  lemma BraceFreeHasNoPlaceholder(s: string, pat: string)
    requires NoChar(s, '{') && |pat| > 0 && pat[0] == '{'
    ensures forall k :: 0 <= k ==> !OccursAt(s, pat, k)
  {
    forall k | 0 <= k
      ensures !OccursAt(s, pat, k)
    {
      if k + |pat| <= |s| {
        assert s[k..k + |pat|][0] == s[k];
      }
    }
  }

  /** A first character that cannot open the pattern is kept and the scan moves on. */
  lemma ReplaceKeepsFront(s: string, pat: string, rep: string)
    requires |pat| > 0 && |s| > 0 && s[0] != pat[0]
    ensures Replace(s, pat, rep) == [s[0]] + Replace(s[1..], pat, rep)
  {
    if |s| >= |pat| {
      assert s[..|pat|][0] == s[0];
    } else {
      assert s == [s[0]] + s[1..];
    }
  }

  /** Replacing skips a brace-free prefix untouched. */
  lemma {:induction false} ReplaceSkipsPrefix(a: string, t: string, pat: string, rep: string)
    requires NoChar(a, '{') && |pat| > 0 && pat[0] == '{'
    ensures Replace(a + t, pat, rep) == a + Replace(t, pat, rep)
    decreases |a|
  {
    if |a| > 0 {
      var s := a + t;
      ReplaceKeepsFront(s, pat, rep);
      assert s[1..] == a[1..] + t;
      ReplaceSkipsPrefix(a[1..], t, pat, rep);
      assert a + Replace(t, pat, rep) == [a[0]] + (a[1..] + Replace(t, pat, rep));
    } else {
      assert a + t == t;
    }
  }

  /** A single placeholder between brace-free texts is replaced and nothing else changes. */
  lemma ReplaceSingle(a: string, pat: string, rep: string, b: string)
    requires NoChar(a, '{') && NoChar(b, '{') && |pat| > 0 && pat[0] == '{'
    ensures Replace(a + pat + b, pat, rep) == a + rep + b
  {
    ReplaceSkipsPrefix(a, pat + b, pat, rep);
    assert a + pat + b == a + (pat + b);
    assert (pat + b)[..|pat|] == pat && (pat + b)[|pat|..] == b;
    BraceFreeHasNoPlaceholder(b, pat);
    ReplaceAbsent(b, pat, rep);
  }

  /**
   * The replacements are made in a fixed order, each over the result of the one before:
   * a brand that spells the model placeholder is rewritten by the model replacement, while
   * a model that spells the brand placeholder is left as it is.
   */
  lemma ReplacementOrder(brand: string, model: string, generated: string, official: string)
    requires NoChar(model, '{')
    ensures Fill(BrandPlaceholder, ModelPlaceholder, model, generated, official) == model
    ensures Fill(ModelPlaceholder, brand, BrandPlaceholder, generated, official) == BrandPlaceholder
  {
    WholePlaceholder(BrandPlaceholder, ModelPlaceholder);
    WholePlaceholder(ModelPlaceholder, model);
    BraceFreeHasNoPlaceholder(model, GeneratedPlaceholder);
    ReplaceAbsent(model, GeneratedPlaceholder, generated);
    BraceFreeHasNoPlaceholder(model, OfficialPlaceholder);
    ReplaceAbsent(model, OfficialPlaceholder, official);

    assert ModelPlaceholder[9] != BrandPlaceholder[9];
    assert !OccursAt(ModelPlaceholder, BrandPlaceholder, 0);
    ReplaceAbsent(ModelPlaceholder, BrandPlaceholder, brand);
    WholePlaceholder(ModelPlaceholder, BrandPlaceholder);
    ReplaceAbsent(BrandPlaceholder, GeneratedPlaceholder, generated);
    ReplaceAbsent(BrandPlaceholder, OfficialPlaceholder, official);
  }

  /** A text that is exactly the placeholder becomes exactly the replacement. */
  lemma WholePlaceholder(pat: string, rep: string)
    requires |pat| > 0 && pat[0] == '{'
    ensures Replace(pat, pat, rep) == rep
  {
    ReplaceSingle("", pat, rep, "");
    assert "" + pat + "" == pat;
    assert "" + rep + "" == rep;
  }

  /** A reviewer configured without a template path builds no prompt for any chunk. */
  lemma UnconfiguredTemplateGivesNoPrompt(config: map<string, string>, files: Files, n: int, brand: string,
                                          model: string, generated: string, official: string)
    requires TemplatePathKey !in config
    ensures CreateChunkPrompt(NewReviewer(config), files, n, brand, model, generated, official).None?
  {
  }

  /** A configured reviewer's prompt for chunk 1, 2 or 3 ends with that chunk's instructions. */
  lemma ConfiguredReviewerInstructions(config: map<string, string>, files: Files, n: int, brand: string,
                                       model: string, generated: string, official: string)
    requires 1 <= n <= 3
    requires TemplatePathKey in config && config[TemplatePathKey] in files
    ensures var prompt := CreateChunkPrompt(NewReviewer(config), files, n, brand, model, generated, official);
            prompt.Some? && EndsWith(prompt.value, Instructions(NewReviewer(config).formats, n))
  {
    var r := NewReviewer(config);
    PromptEndsWithInstructions(r.formats, n, files[config[TemplatePathKey]], brand, model, generated, official);
  }

  /** The chunk's instructions are appended last. */
  lemma PromptEndsWithInstructions(f: Formats, n: int, template: string, brand: string, model: string,
                                   generated: string, official: string)
    requires 1 <= n <= 3
    ensures EndsWith(ChunkPrompt(f, n, template, brand, model, generated, official), Instructions(f, n))
  {
    var p := ChunkPrompt(f, n, template, brand, model, generated, official);
    var text := Instructions(f, n);
    assert p == Fill(template, brand, model, generated, official) + text;
    assert p[|p| - |text|..] == text;
  }

  /** A chunk number other than 1, 2 or 3 gets the filled template with no instructions. */
  lemma UnknownChunkGetsNoInstructions(f: Formats, n: int, template: string, brand: string, model: string,
                                       generated: string, official: string)
    requires !(1 <= n <= 3)
    ensures ChunkPrompt(f, n, template, brand, model, generated, official) == Fill(template, brand, model, generated, official)
  {
  }

  /** A template with no braces at all is sent as it is, followed by the chunk's instructions. */
  lemma PlainTemplate(f: Formats, n: int, template: string, brand: string, model: string, generated: string, official: string)
    requires NoChar(template, '{') && 1 <= n <= 3
    ensures ChunkPrompt(f, n, template, brand, model, generated, official) == template + Instructions(f, n)
  {
    BraceFreeHasNoPlaceholder(template, BrandPlaceholder);
    ReplaceAbsent(template, BrandPlaceholder, brand);
    BraceFreeHasNoPlaceholder(template, ModelPlaceholder);
    ReplaceAbsent(template, ModelPlaceholder, model);
    BraceFreeHasNoPlaceholder(template, GeneratedPlaceholder);
    ReplaceAbsent(template, GeneratedPlaceholder, generated);
    BraceFreeHasNoPlaceholder(template, OfficialPlaceholder);
    ReplaceAbsent(template, OfficialPlaceholder, official);
  }

  /**
   * The sensor's brand lands where its placeholder stood, when neither the surrounding
   * text nor the brand has a brace.
   */
  lemma BrandFilledIn(a: string, b: string, brand: string, model: string, generated: string, official: string)
    requires NoChar(a, '{') && NoChar(b, '{') && NoChar(brand, '{')
    ensures Fill(a + BrandPlaceholder + b, brand, model, generated, official) == a + brand + b
  {
    ReplaceSingle(a, BrandPlaceholder, brand, b);
    var p := a + brand + b;
    assert NoChar(p, '{') by {
      forall i | 0 <= i < |p|
        ensures p[i] != '{'
      {
        if i < |a| { assert p[i] == a[i]; }
        else if i < |a| + |brand| { assert p[i] == brand[i - |a|]; }
        else { assert p[i] == b[i - |a| - |brand|]; }
      }
    }
    BraceFreeHasNoPlaceholder(p, ModelPlaceholder);
    ReplaceAbsent(p, ModelPlaceholder, model);
    BraceFreeHasNoPlaceholder(p, GeneratedPlaceholder);
    ReplaceAbsent(p, GeneratedPlaceholder, generated);
    BraceFreeHasNoPlaceholder(p, OfficialPlaceholder);
    ReplaceAbsent(p, OfficialPlaceholder, official);
  }

  // ---------------------------------------------------------------- the official datasheet

  /** The directories searched, in order. */
  const AlternatePaths := ["datasheet/", "data/official_datasheets/", "data/datasheets/", "datasheets/"]

  /** The paths tried, in order: in each directory the .md file, then the .txt file. */
  function DatasheetCandidates(brand: string, model: string): (paths: seq<string>)
    ensures |paths| == 2 * |AlternatePaths|
  {
    seq(2 * |AlternatePaths|, j requires 0 <= j < 2 * |AlternatePaths| =>
      PathJoin(AlternatePaths[j / 2], brand + "_" + model + (if j % 2 == 0 then ".md" else ".txt")))
  }

  /** The first of `paths` that exists. */
  function FirstPresent(files: Files, paths: seq<string>): (r: Option<nat>)
    ensures r.Some? ==> r.value < |paths| && paths[r.value] in files
    ensures r.Some? ==> forall j :: 0 <= j < r.value ==> paths[j] !in files
    ensures r.None? ==> forall j :: 0 <= j < |paths| ==> paths[j] !in files
  {
    if |paths| == 0 then None
    else if paths[0] in files then Some(0)
    else match FirstPresent(files, paths[1..])
         case Some(i) => Some(i + 1)
         case None => None
  }

  /** The official datasheet's path and contents, if any candidate exists. */
  function OfficialDatasheet(files: Files, brand: string, model: string): Option<(string, string)>
  {
    var paths := DatasheetCandidates(brand, model);
    match FirstPresent(files, paths)
    case Some(i) => Some((paths[i], files[paths[i]]))
    case None => None
  }

  /** The two candidates of directory `i`. */
  lemma CandidatesOf(brand: string, model: string, i: nat)
    requires i < |AlternatePaths|
    ensures DatasheetCandidates(brand, model)[2 * i] == PathJoin(AlternatePaths[i], brand + "_" + model + ".md")
    ensures DatasheetCandidates(brand, model)[2 * i + 1] == PathJoin(AlternatePaths[i], brand + "_" + model + ".txt")
  {
    assert (2 * i) / 2 == i && (2 * i + 1) / 2 == i && (2 * i) % 2 == 0 && (2 * i + 1) % 2 == 1;
  }

  /** The search loop of review_sensor: stops at the first file found. */
  method LocateOfficialDatasheet(files: Files, brand: string, model: string) returns (found: Option<(string, string)>)
    ensures found == OfficialDatasheet(files, brand, model)
  {
    ghost var paths := DatasheetCandidates(brand, model);
    var name := brand + "_" + model;
    ghost var first := FirstPresent(files, paths);
    var i := 0;
    while i < |AlternatePaths|
      invariant 0 <= i <= |AlternatePaths|
      invariant forall j :: 0 <= j < 2 * i ==> paths[j] !in files
    {
      CandidatesOf(brand, model, i);
      var md := PathJoin(AlternatePaths[i], name + ".md");
      if md in files {
        assert first == Some(2 * i);
        return Some((md, files[md]));
      }
      var txt := PathJoin(AlternatePaths[i], name + ".txt");
      if txt in files {
        assert first == Some(2 * i + 1);
        return Some((txt, files[txt]));
      }
      i := i + 1;
    }
    assert first.None?;
    return None;
  }

  /** A datasheet found is the first candidate that exists; none is found only when no candidate exists. */
  lemma OfficialDatasheetIsFirst(files: Files, brand: string, model: string, j: nat)
    requires j < 2 * |AlternatePaths| && DatasheetCandidates(brand, model)[j] in files
    ensures OfficialDatasheet(files, brand, model).Some?
    ensures var (path, text) := OfficialDatasheet(files, brand, model).value;
            path in files && text == files[path]
            && (exists i :: 0 <= i <= j && path == DatasheetCandidates(brand, model)[i]
                  && forall k :: 0 <= k < i ==> DatasheetCandidates(brand, model)[k] !in files)
  {
    var paths := DatasheetCandidates(brand, model);
    var i := FirstPresent(files, paths).value;
    assert paths[i] == OfficialDatasheet(files, brand, model).value.0;
  }

  /** Markdown is preferred: with both files in the first directory, the .md one is read. */
  lemma MarkdownFirst(files: Files, brand: string, model: string)
    requires PathJoin(AlternatePaths[0], brand + "_" + model + ".md") in files
    ensures OfficialDatasheet(files, brand, model) ==
            Some((PathJoin(AlternatePaths[0], brand + "_" + model + ".md"),
                  files[PathJoin(AlternatePaths[0], brand + "_" + model + ".md")]))
  {
    assert DatasheetCandidates(brand, model)[0] == PathJoin(AlternatePaths[0], brand + "_" + model + ".md");
  }

  // ---------------------------------------------------------------- the whole review

  /** What review_sensor is given. */
  datatype Job = Job(modelId: string, brand: string, sensorModel: string, generatedPath: string)

  /** What it reaches out to: the files, the review client, `str` and `json.loads`. */
  datatype Services = Services(files: Files, client: Client, show: Json -> string, parse: Parser)

  /** Seconds slept after each of the first two chunks. */
  const ChunkDelay := 30

  /** Chunk `n` of the review: build its prompt and process it. */
  function ChunkStep(r: Reviewer, svc: Services, job: Job, generated: string, official: string, n: int): (c: Option<Record>)
    ensures c.Some? ==> 1 <= n <= 3 && IsRecord(ChunkSchema(n), c.value)
  {
    match CreateChunkPrompt(r, svc.files, n, job.brand, job.sensorModel, generated, official)
    case None => None
    case Some(prompt) => ProcessReviewChunk(n, svc.client, job.modelId, prompt, svc.show, svc.parse)
  }

  /** The outcome of each chunk, in order. */
  function Outcomes(r: Reviewer, svc: Services, job: Job, generated: string, official: string): (outs: seq<Option<Record>>)
    ensures |outs| == 3
  {
    seq(3, i => ChunkStep(r, svc, job, generated, official, i + 1))
  }

  /** The first k chunks' records, or None once one of them fails. */
  function RunChunks(outs: seq<Option<Record>>, k: nat): (cs: Option<seq<Record>>)
    requires k <= |outs|
    ensures cs.Some? <==> forall i :: 0 <= i < k ==> outs[i].Some?
    ensures cs.Some? ==> |cs.value| == k && forall i :: 0 <= i < k ==> outs[i] == Some(cs.value[i])
  {
    if k == 0 then Some([])
    else match RunChunks(outs, k - 1)
         case None => None
         case Some(cs) =>
           match outs[k - 1]
           case None => None
           case Some(c) => Some(cs + [c])
  }

  /** The generated and the official datasheet, if both can be read. */
  function Datasheets(svc: Services, job: Job): Option<(string, string)>
  {
    if job.generatedPath !in svc.files then None
    else match OfficialDatasheet(svc.files, job.brand, job.sensorModel)
         case None => None
         case Some((_, official)) => Some((svc.files[job.generatedPath], official))
  }

  /** review_sensor's result: the complete review, or None at the first failure. */
  function SensorReview(r: Reviewer, svc: Services, job: Job): (review: Option<Record>)
    ensures review.Some? ==> Datasheets(svc, job).Some? && review.value.Keys == CompleteSchema().Keys
  {
    match Datasheets(svc, job)
    case None => None
    case Some((generated, official)) =>
      var outs := Outcomes(r, svc, job, generated, official);
      match RunChunks(outs, 3)
      case None => None
      case Some(cs) =>
        assert ChunkRecords(cs[0], cs[1], cs[2]) by {
          assert outs[0] == Some(cs[0]) && outs[1] == Some(cs[1]) && outs[2] == Some(cs[2]);
        }
        CombineChunks(cs[0], cs[1], cs[2])
  }

  /** The pauses review_sensor makes: one after each of chunks 1 and 2 that succeeded. */
  function Pauses(r: Reviewer, svc: Services, job: Job): seq<int>
  {
    match Datasheets(svc, job)
    case None => []
    case Some((generated, official)) => PausesOf(Outcomes(r, svc, job, generated, official))
  }

  function PausesOf(outs: seq<Option<Record>>): seq<int>
    requires |outs| == 3
  {
    if outs[0].None? then [] else if outs[1].None? then [ChunkDelay] else [ChunkDelay, ChunkDelay]
  }

  /** The chunks review_sensor starts, in order: it stops after the first that fails. */
  function Attempted(r: Reviewer, svc: Services, job: Job): seq<int>
  {
    match Datasheets(svc, job)
    case None => []
    case Some((generated, official)) => AttemptedOf(Outcomes(r, svc, job, generated, official))
  }

  function AttemptedOf(outs: seq<Option<Record>>): seq<int>
    requires |outs| == 3
  {
    if outs[0].None? then [1] else if outs[1].None? then [1, 2] else [1, 2, 3]
  }

  /** Where a complete review is written. */
  function OutputPath(r: Reviewer, job: Job): (path: string)
    ensures EndsWith(path, "_review.json")
  {
    var name := Replace(job.modelId, "/", "_") + "_" + job.brand + "_" + job.sensorModel + "_review.json";
    JoinKeepsEnding(r.reviewsPath, name, "_review.json");
    PathJoin(r.reviewsPath, name)
  }

  /** Once the generated file and an official datasheet are read, they are the two texts the review works from. */
  lemma DatasheetsRead(svc: Services, job: Job, generated: string, official: string)
    requires job.generatedPath in svc.files && generated == svc.files[job.generatedPath]
    requires OfficialDatasheet(svc.files, job.brand, job.sensorModel).Some?
    requires official == OfficialDatasheet(svc.files, job.brand, job.sensorModel).value.1
    ensures Datasheets(svc, job) == Some((generated, official))
  {
  }

  /** The chunks started by the time chunk `k` has been processed. */
  function Started(k: nat): seq<int>
  {
    if k == 0 then [] else if k == 1 then [1] else if k == 2 then [1, 2] else [1, 2, 3]
  }

  /** Starting chunk `n` extends the attempts so far by `n`. */
  lemma StartedNext(n: nat)
    requires 1 <= n <= 3
    ensures Started(n - 1) + [n] == Started(n)
  {
  }

  /** The pauses taken once chunks 1..`k` have succeeded. */
  function Slept(k: nat): seq<int>
  {
    if k == 0 then [] else if k == 1 then [ChunkDelay] else [ChunkDelay, ChunkDelay]
  }

  /** One pass of the chunk loop: build chunk `n`'s prompt and process it. */
  method RunChunk(r: Reviewer, svc: Services, job: Job, generated: string, official: string, n: int)
    returns (chunk: Option<Record>)
    requires 1 <= n <= 3
    ensures chunk == Outcomes(r, svc, job, generated, official)[n - 1]
  {
    var prompt := CreateChunkPrompt(r, svc.files, n, job.brand, job.sensorModel, generated, official);
    if prompt.None? {
      return None;
    }
    chunk := ProcessReviewChunk(n, svc.client, job.modelId, prompt.value, svc.show, svc.parse);
  }

  /** A run that has reached chunk `k` and sees it succeed goes on with one more record. */
  lemma RunChunksExtend(outs: seq<Option<Record>>, k: nat, done: seq<Record>, c: Record)
    requires k < |outs| && RunChunks(outs, k) == Some(done) && outs[k] == Some(c)
    ensures RunChunks(outs, k + 1) == Some(done + [c])
  {
  }

  /** A run that fails at chunk `n` has no records, having started chunks 1..n and paused after each success. */
  lemma StopsAt(outs: seq<Option<Record>>, n: int)
    requires |outs| == 3 && 1 <= n <= 3 && RunChunks(outs, n - 1).Some? && outs[n - 1].None?
    ensures RunChunks(outs, 3).None?
    ensures AttemptedOf(outs) == Started(n)
    ensures PausesOf(outs) == Slept(n - 1)
  {
    assert !outs[n - 1].Some?;
  }

  /** A run in which all three chunks succeed started all three and paused twice. */
  lemma RunsThrough(outs: seq<Option<Record>>, chunks: seq<Record>)
    requires |outs| == 3 && RunChunks(outs, 3) == Some(chunks)
    ensures AttemptedOf(outs) == Started(3)
    ensures PausesOf(outs) == Slept(2)
  {
    assert outs[0] == Some(chunks[0]) && outs[1] == Some(chunks[1]);
  }

  /** Once the datasheets are read and all three chunks pass, the review is their merge. */
  lemma ReviewOnceRun(r: Reviewer, svc: Services, job: Job, generated: string, official: string, chunks: seq<Record>)
    requires Datasheets(svc, job) == Some((generated, official))
    requires RunChunks(Outcomes(r, svc, job, generated, official), 3) == Some(chunks)
    ensures ChunkRecords(chunks[0], chunks[1], chunks[2])
    ensures SensorReview(r, svc, job) == CombineChunks(chunks[0], chunks[1], chunks[2])
  {
    var outs := Outcomes(r, svc, job, generated, official);
    assert outs[0] == Some(chunks[0]) && outs[1] == Some(chunks[1]) && outs[2] == Some(chunks[2]);
  }

  /** The start of review_sensor: the generated datasheet, then the official one. */
  method ReadDatasheets(svc: Services, job: Job) returns (sheets: Option<(string, string)>)
    ensures sheets == Datasheets(svc, job)
  {
    if job.generatedPath !in svc.files {
      return None;
    }
    var generated := svc.files[job.generatedPath];
    var found := LocateOfficialDatasheet(svc.files, job.brand, job.sensorModel);
    if found.None? {
      return None;
    }
    var official := found.value.1;
    DatasheetsRead(svc, job, generated, official);
    sheets := Some((generated, official));
  }

  /**
   * review_sensor: read both datasheets, run the three chunks in order with a pause after
   * each of the first two, combine, and report where the review is saved.
   */
  method ReviewSensor(r: Reviewer, svc: Services, job: Job)
    returns (review: Option<Record>, attempted: seq<int>, pauses: seq<int>, savedTo: Option<string>)
    ensures review == SensorReview(r, svc, job)
    ensures attempted == Attempted(r, svc, job)
    ensures pauses == Pauses(r, svc, job)
    ensures savedTo == if review.Some? then Some(OutputPath(r, job)) else None
  {
    attempted, pauses := [], [];
    var sheets := ReadDatasheets(svc, job);
    if sheets.None? {
      return None, attempted, pauses, None;
    }
    var (generated, official) := sheets.value;
    var chunks;
    chunks, attempted, pauses := RunAllChunks(r, svc, job, generated, official);
    if chunks.None? {
      return None, attempted, pauses, None;
    }
    ReviewOnceRun(r, svc, job, generated, official, chunks.value);
    review := CombineChunks(chunks.value[0], chunks.value[1], chunks.value[2]);
    savedTo := if review.Some? then Some(OutputPath(r, job)) else None;
  }

  /** The chunk loop of review_sensor: chunks 1..3 in order, stopping at the first failure. */
  method RunAllChunks(r: Reviewer, svc: Services, job: Job, generated: string, official: string)
    returns (chunks: Option<seq<Record>>, attempted: seq<int>, pauses: seq<int>)
    ensures chunks == RunChunks(Outcomes(r, svc, job, generated, official), 3)
    ensures attempted == AttemptedOf(Outcomes(r, svc, job, generated, official))
    ensures pauses == PausesOf(Outcomes(r, svc, job, generated, official))
  {
    attempted, pauses := [], [];
    var done: seq<Record> := [];
    ghost var outs := Outcomes(r, svc, job, generated, official);
    var n := 1;
    while n <= 3
      invariant 1 <= n <= 4
      invariant RunChunks(outs, n - 1) == Some(done)
      invariant attempted == Started(n - 1)
      invariant pauses == Slept(n - 1)
    {
      StartedNext(n);
      attempted := attempted + [n];
      var chunk := RunChunk(r, svc, job, generated, official, n);
      if chunk.None? {
        StopsAt(outs, n);
        return None, attempted, pauses;
      }
      RunChunksExtend(outs, n - 1, done, chunk.value);
      done := done + [chunk.value];
      if n < 3 {
        pauses := pauses + [ChunkDelay];
      }
      n := n + 1;
    }
    RunsThrough(outs, done);
    chunks := Some(done);
  }

  /**
   * A review comes back exactly when both datasheets are read, all three chunks pass their
   * schemas, and every P1..P16 score is "N/A" or lies in 1..5.
   */
  lemma ReviewSucceedsIff(r: Reviewer, svc: Services, job: Job)
    ensures SensorReview(r, svc, job).Some? <==>
              && Datasheets(svc, job).Some?
              && var (generated, official) := Datasheets(svc, job).value;
              && var cs := RunChunks(Outcomes(r, svc, job, generated, official), 3);
              && cs.Some?
              && forall i :: 1 <= i <= 16 ==> ScoreInRange(Score(cs.value[0], cs.value[1], cs.value[2], i))
  {
    if Datasheets(svc, job).Some? {
      var (generated, official) := Datasheets(svc, job).value;
      var outs := Outcomes(r, svc, job, generated, official);
      var cs := RunChunks(outs, 3);
      if cs.Some? {
        ReviewOnceRun(r, svc, job, generated, official, cs.value);
        CombineSucceedsIff(cs.value[0], cs.value[1], cs.value[2]);
      }
    }
  }

  /** Every score of a complete review is "N/A" or lies in 1..5. */
  lemma ReviewScoresInRange(r: Reviewer, svc: Services, job: Job, i: nat)
    requires SensorReview(r, svc, job).Some? && 1 <= i <= 16
    ensures ScoreField(i) in SensorReview(r, svc, job).value
    ensures var x := SensorReview(r, svc, job).value[ScoreField(i)];
            x == NotApplicable || (x.Num? && InLikertRange(x.n))
  {
    assert Datasheets(svc, job).Some?;
    var (generated, official) := Datasheets(svc, job).value;
    var outs := Outcomes(r, svc, job, generated, official);
    assert RunChunks(outs, 3).Some?;
    var cs := RunChunks(outs, 3).value;
    ReviewOnceRun(r, svc, job, generated, official, cs);
    CombinedScoresInRange(cs[0], cs[1], cs[2], i);
  }

  lemma CombinedScoresInRange(c1: Record, c2: Record, c3: Record, i: nat)
    requires ChunkRecords(c1, c2, c3) && CombineChunks(c1, c2, c3).Some? && 1 <= i <= 16
    ensures ScoreField(i) in CombineChunks(c1, c2, c3).value
    ensures var x := CombineChunks(c1, c2, c3).value[ScoreField(i)];
            x == NotApplicable || (x.Num? && InLikertRange(x.n))
  {
    ScoreFieldKind(i);
    var f := ScoreField(i);
    CompleteKinds(Home(f), f);
    var r := CombineChunks(c1, c2, c3).value;
    assert CompleteSchema()[f] == CheckedScoreKind;
    assert Accept(CheckedScoreKind, Combined(c1, c2, c3)[f]) == Some(r[f]);
    CheckedScoreValues(Combined(c1, c2, c3)[f]);
  }

  /** What a checked score field can hold. */
  lemma CheckedScoreValues(v: Json)
    requires Accept(CheckedScoreKind, v).Some?
    ensures var x := Accept(CheckedScoreKind, v).value;
            x == NotApplicable || (x.Num? && InLikertRange(x.n))
  {
  }

  /** Chunks are started in the order 1, 2, 3, and none at all when a datasheet cannot be read. */
  lemma AttemptsInOrder(r: Reviewer, svc: Services, job: Job)
    ensures var a := Attempted(r, svc, job);
            |a| <= 3 && forall i :: 0 <= i < |a| ==> a[i] == i + 1
    ensures Datasheets(svc, job).None? <==> Attempted(r, svc, job) == []
  {
    match Datasheets(svc, job)
    case None =>
    case Some((generated, official)) =>
      AttemptedOfInOrder(Outcomes(r, svc, job, generated, official));
  }

  lemma AttemptedOfInOrder(outs: seq<Option<Record>>)
    requires |outs| == 3
    ensures var a := AttemptedOf(outs);
            1 <= |a| <= 3 && forall i :: 0 <= i < |a| ==> a[i] == i + 1
  {
  }

  /**
   * Every chunk before the last one started succeeded, and a run that started fewer than
   * three chunks stopped because its last one failed; a review means all three were started.
   */
  lemma AttemptsStopAtFirstFailure(r: Reviewer, svc: Services, job: Job)
    ensures var a := Attempted(r, svc, job);
            |a| > 0 ==>
              var (generated, official) := Datasheets(svc, job).value;
              var outs := Outcomes(r, svc, job, generated, official);
              && (forall i :: 0 <= i < |a| - 1 ==> outs[i].Some?)
              && (|a| < 3 ==> outs[|a| - 1].None?)
    ensures SensorReview(r, svc, job).Some? ==> Attempted(r, svc, job) == [1, 2, 3]
  {
    match Datasheets(svc, job)
    case None =>
    case Some((generated, official)) =>
      AttemptedOfStops(Outcomes(r, svc, job, generated, official));
  }

  lemma AttemptedOfStops(outs: seq<Option<Record>>)
    requires |outs| == 3
    ensures var a := AttemptedOf(outs);
            && (forall i :: 0 <= i < |a| - 1 ==> outs[i].Some?)
            && (|a| < 3 ==> outs[|a| - 1].None?)
            && (RunChunks(outs, 3).Some? ==> a == [1, 2, 3])
  {
    if RunChunks(outs, 3).Some? {
      assert outs[0].Some? && outs[1].Some?;
    }
  }

  /** A complete review took both pauses; a run that stopped early took fewer. */
  lemma PausesBetweenChunks(r: Reviewer, svc: Services, job: Job)
    ensures SensorReview(r, svc, job).Some? ==> Pauses(r, svc, job) == [ChunkDelay, ChunkDelay]
    ensures |Pauses(r, svc, job)| <= 2
  {
    match Datasheets(svc, job)
    case None =>
    case Some((generated, official)) =>
      PausesOfBound(Outcomes(r, svc, job, generated, official));
  }

  lemma PausesOfBound(outs: seq<Option<Record>>)
    requires |outs| == 3
    ensures |PausesOf(outs)| <= 2
    ensures RunChunks(outs, 3).Some? ==> PausesOf(outs) == [ChunkDelay, ChunkDelay]
  {
    if RunChunks(outs, 3).Some? {
      assert outs[0].Some? && outs[1].Some?;
    }
  }

  const Chunk1Instructions :=
    "\n"
    + "# IMPORTANT: Response Format for CHUNK 1\n"
    + "This is part 1 of 3 of the review. ONLY evaluate criteria P1-P6 (Disclaimer through Potential Applications).\n"
    + "Return ONLY valid JSON with this exact structure:\n"
    + "\n"
    + "```json\n"
    + "{\n"
    + "  \"sensor_evaluated\": \"BRAND MODEL\",\n"
    + "  \"p1_score\": 5,\n"
    + "  \"p1_justification\": \"Brief justification for P1\",\n"
    + "  \"p2_score\": 4,\n"
    + "  \"p2_justification\": \"Brief justification for P2\",\n"
    + "  \"p3_score\": 4,\n"
    + "  \"p3_justification\": \"Brief justification for P3\",\n"
    + "  \"p4_score\": 5,\n"
    + "  \"p4_justification\": \"Brief justification for P4\",\n"
    + "  \"p5_score\": 3,\n"
    + "  \"p5_justification\": \"Brief justification for P5\",\n"
    + "  \"p6_score\": 4,\n"
    + "  \"p6_justification\": \"Brief justification for P6\"\n"
    + "}\n"
    + "```\n"
    + "\n"
    + "DO NOT include evaluations for P7-P16 or overall score in this response.\n"
    + "Keep justifications concise (under 100 characters) to ensure response fits within API limits.\n"

  const Chunk2Instructions :=
    "\n"
    + "# IMPORTANT: Response Format for CHUNK 2\n"
    + "This is part 2 of 3 of the review. ONLY evaluate criteria P7-P11 (Pin Configuration through Sensor Performance).\n"
    + "Return ONLY valid JSON with this exact structure:\n"
    + "\n"
    + "```json\n"
    + "{\n"
    + "  \"sensor_evaluated\": \"BRAND MODEL\",\n"
    + "  \"p7_score\": 4,\n"
    + "  \"p7_justification\": \"Brief justification for P7\",\n"
    + "  \"p8_score\": 5,\n"
    + "  \"p8_justification\": \"Brief justification for P8\",\n"
    + "  \"p9_score\": 3,\n"
    + "  \"p9_justification\": \"Brief justification for P9\",\n"
    + "  \"p10_score\": 4,\n"
    + "  \"p10_justification\": \"Brief justification for P10\",\n"
    + "  \"p11_score\": 5,\n"
    + "  \"p11_justification\": \"Brief justification for P11\"\n"
    + "}\n"
    + "```\n"
    + "\n"
    + "DO NOT include evaluations for P1-P6, P12-P16, or overall score in this response.\n"
    + "Keep justifications concise (under 100 characters) to ensure response fits within API limits.\n"

  const Chunk3Instructions :=
    "\n"
    + "# IMPORTANT: Response Format for CHUNK 3\n"
    + "This is part 3 of 3 of the review. ONLY evaluate criteria P12-P16 (Communication Protocol through Compliance) and provide an overall score.\n"
    + "Return ONLY valid JSON with this exact structure:\n"
    + "\n"
    + "```json\n"
    + "{\n"
    + "  \"sensor_evaluated\": \"BRAND MODEL\",\n"
    + "  \"p12_score\": 4,\n"
    + "  \"p12_justification\": \"Brief justification for P12\",\n"
    + "  \"p13_score\": 3,\n"
    + "  \"p13_justification\": \"Brief justification for P13\",\n"
    + "  \"p14_score\": 5,\n"
    + "  \"p14_justification\": \"Brief justification for P14\",\n"
    + "  \"p15_score\": 4,\n"
    + "  \"p15_justification\": \"Brief justification for P15\",\n"
    + "  \"p16_score\": \"N/A\",\n"
    + "  \"p16_justification\": \"Brief justification for P16\",\n"
    + "  \"overall_score\": 4,\n"
    + "  \"overall_justification\": \"Brief overall justification\",\n"
    + "  \"confirmation\": \"This review is exclusively for the BRAND MODEL sensor and contains no references to other sensor models.\"\n"
    + "}\n"
    + "```\n"
    + "\n"
    + "DO NOT include evaluations for P1-P11 in this response.\n"
    + "Keep justifications concise (under 100 characters) to ensure response fits within API limits.\n"
}
