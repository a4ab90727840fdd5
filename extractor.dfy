/**
 * extract_json_from_llm_response: turns free-form model output into
 * (scores, justifications, error message). It never raises: every failure is
 * reported in the third component.
 */
module ResponseExtractor {
  import opened Wrappers
  import opened JsonValue
  import opened Text

  /** The triple the extractor returns. */
  datatype Extraction = Extraction(scores: map<string, Json>, justifications: map<string, Json>, error: Option<string>)

  const EmptyResponse := "Empty response received"
  const ApiErrorPrefix := "API error: "
  const NoJsonPrefix := "Could not find valid JSON in response: "
  const NoScores := "Could not extract any scores" + " from the response"
  const BadJsonPrefix := "Error parsing extracted JSON: "
  const Fence := "```"
  const JsonFence := "```json"
  /** The brace pattern nests `{...}` at most this deep. */
  const MaxBraceDepth := 3

  // ---------------------------------------------------------------- the API-error short-circuit

  /** The lower-cased text mentions "error" together with a rate limit, an API error or a status code. */
  predicate LooksLikeApiError(text: string)
  {
    var l := Lower(text);
    Contains(l, "error") && (Contains(l, "rate limit") || Contains(l, "api error") || Contains(l, "status code"))
  }

  /** "API error: " followed by the first 200 characters and "...". */
  function ApiErrorMessage(text: string): string
  {
    ApiErrorPrefix + (if |text| <= 200 then text else text[..200]) + "..."
  }

  // ---------------------------------------------------------------- the three regular expressions

  /** Where the next block lies: just after the leftmost opener, up to the nearest closing fence. */
  function NextBlock(text: string, opener: string, from: nat): (r: Option<(nat, nat)>)
    ensures r.Some? ==> from <= r.value.0 <= r.value.1 && r.value.1 + |Fence| <= |text|
    ensures r.Some? ==> Find(text, Fence, r.value.0) == Some(r.value.1)
  {
    match Find(text, opener, from)
    case None => None
    case Some(i) =>
      match Find(text, Fence, i + |opener|)
      case None => None
      case Some(j) => Some((i + |opener|, j))
  }

  /**
   * re.findall(opener + "(.*?)```", text, re.DOTALL) from position `from`: the leftmost opener,
   * then everything up to the nearest closing fence; the scan resumes after that fence.
   */
  function FencedBlocks(text: string, opener: string, from: nat): (blocks: seq<string>)
    ensures NoFenceIn(blocks)
    decreases |text| - from
  {
    match NextBlock(text, opener, from)
    case None => []
    case Some((start, j)) =>
      BlockBeforeFence(text, start, j);
      NoFenceCons(text[start..j], FencedBlocks(text, opener, j + |Fence|));
      [text[start..j]] + FencedBlocks(text, opener, j + |Fence|)
  }

  /** No block of the list contains a fence. */
  predicate NoFenceIn(blocks: seq<string>)
  {
    forall b :: b in blocks ==> !Contains(b, Fence)
  }

  /** One step of the scan: no block, or the next block followed by the blocks after its fence. */
  lemma FencedBlocksUnfold(text: string, opener: string, from: nat)
    ensures NextBlock(text, opener, from).None? ==> FencedBlocks(text, opener, from) == []
    ensures NextBlock(text, opener, from).Some? ==>
              var next := NextBlock(text, opener, from).value;
              FencedBlocks(text, opener, from) == [text[next.0..next.1]] + FencedBlocks(text, opener, next.1 + |Fence|)
  {
  }

  lemma NoFenceCons(b: string, rest: seq<string>)
    requires !Contains(b, Fence) && NoFenceIn(rest)
    ensures NoFenceIn([b] + rest)
  {
  }

  /** The text before the first fence from `start` on holds no fence. */
  lemma BlockBeforeFence(text: string, start: nat, j: nat)
    requires Find(text, Fence, start) == Some(j)
    ensures !Contains(text[start..j], Fence)
  {
    var b := text[start..j];
    if Contains(b, Fence) {
      var k := Find(b, Fence, 0).value;
      OccursInSlice(text, start, j, Fence, k);
      assert false;
    }
  }

  /**
   * Where a match of the brace pattern that has reached position `k` at nesting `depth`
   * closes: the position just after its final '}'. None when a fourth level of nesting
   * opens or the text ends first, since the pattern then fails at this start.
   */
  function SpanEnd(text: string, k: nat, depth: nat): (r: Option<nat>)
    requires 1 <= depth <= MaxBraceDepth && k <= |text|
    ensures r.Some? ==> k < r.value <= |text| && text[r.value - 1] == '}'
    decreases |text| - k
  {
    if k == |text| then None
    else if text[k] == '{' then (if depth == MaxBraceDepth then None else SpanEnd(text, k + 1, depth + 1))
    else if text[k] == '}' then (if depth == 1 then Some(k + 1) else SpanEnd(text, k + 1, depth - 1))
    else SpanEnd(text, k + 1, depth)
  }

  /** re.findall of the brace pattern from position `from`, left to right, without overlaps. */
  function BraceSpans(text: string, from: nat): seq<string>
    requires from <= |text|
    decreases |text| - from
  {
    if from == |text| then []
    else if text[from] == '{' then
      match SpanEnd(text, from + 1, 1)
      case Some(j) => [text[from..j]] + BraceSpans(text, j)
      case None => BraceSpans(text, from + 1)
    else BraceSpans(text, from + 1)
  }

  function Count(s: string, c: char): nat
  {
    if |s| == 0 then 0 else (if s[0] == c then 1 else 0) + Count(s[1..], c)
  }

  /** From nesting `depth`, the text up to the closing position holds `depth` more '}' than '{'. */
  lemma {:induction false} SpanEndBalances(text: string, k: nat, depth: nat)
    requires 1 <= depth <= MaxBraceDepth && k <= |text|
    requires SpanEnd(text, k, depth).Some?
    ensures var j := SpanEnd(text, k, depth).value;
            Count(text[k..j], '}') == Count(text[k..j], '{') + depth
    decreases |text| - k
  {
    var j := SpanEnd(text, k, depth).value;
    assert text[k..j] == [text[k]] + text[k + 1..j];
    if text[k] == '{' {
      SpanEndBalances(text, k + 1, depth + 1);
    } else if text[k] == '}' && depth > 1 {
      SpanEndBalances(text, k + 1, depth - 1);
    } else if text[k] != '}' {
      SpanEndBalances(text, k + 1, depth);
    }
  }

  /** A single candidate is balanced: brace counts agree and it is wrapped in '{' and '}'. */
  predicate Balanced(s: string)
  {
    |s| >= 2 && s[0] == '{' && s[|s| - 1] == '}' && Count(s, '{') == Count(s, '}')
  }

  /** The span opening at `from` and closing where SpanEnd says is balanced. */
  lemma SpanBalanced(text: string, from: nat, j: nat)
    requires from < |text| && text[from] == '{' && SpanEnd(text, from + 1, 1) == Some(j)
    ensures from < j <= |text| && Balanced(text[from..j])
  {
    var span, rest := text[from..j], text[from + 1..j];
    SpanEndBalances(text, from + 1, 1);
    assert span[1..] == rest;
    assert Count(span, '{') == 1 + Count(rest, '{');
    assert Count(span, '}') == Count(rest, '}');
    assert |span| >= 2 && span[0] == '{' && span[|span| - 1] == '}';
    assert Balanced(span);
  }

  /** Every brace candidate opens with '{', closes with '}' and has as many of one as of the other. */
  lemma {:induction false} BraceSpansBalanced(text: string, from: nat)
    requires from <= |text|
    ensures forall s :: s in BraceSpans(text, from) ==> Balanced(s)
    decreases |text| - from
  {
    if from < |text| {
      if text[from] == '{' && SpanEnd(text, from + 1, 1).Some? {
        var j := SpanEnd(text, from + 1, 1).value;
        SpanBalanced(text, from, j);
        BraceSpansBalanced(text, j);
        forall s | s in [text[from..j]] + BraceSpans(text, j)
          ensures Balanced(s)
        {
          if s != text[from..j] {
            assert s in BraceSpans(text, j);
          }
        }
      } else {
        BraceSpansBalanced(text, from + 1);
      }
    }
  }

  // ---------------------------------------------------------------- trying candidates in order

  /** json.loads accepts the text. */
  predicate Parses(parse: Parser, s: string)
  {
    parse(s).Success?
  }

  /** The fenced candidates are stripped before parsing; the brace candidates are not. */
  function Prepare(candidate: string, strip: bool): string
  {
    if strip then Strip(candidate) else candidate
  }

  /** The index of the first candidate from `from` on that parses: the loop breaks there. */
  function FirstParsing(candidates: seq<string>, parse: Parser, strip: bool, from: nat): (r: Option<nat>)
    requires from <= |candidates|
    ensures r.Some? ==> from <= r.value < |candidates| && Parses(parse, Prepare(candidates[r.value], strip))
    ensures r.Some? ==> forall k :: from <= k < r.value ==> !Parses(parse, Prepare(candidates[k], strip))
    ensures r.None? ==> forall k :: from <= k < |candidates| ==> !Parses(parse, Prepare(candidates[k], strip))
    decreases |candidates| - from
  {
    if from == |candidates| then None
    else if Parses(parse, Prepare(candidates[from], strip)) then Some(from)
    else FirstParsing(candidates, parse, strip, from + 1)
  }

  /**
   * What `json_str` holds: the accepted text, with the value it parses to (re-parsing the
   * same text gives the same value, so the model keeps the first result).
   */
  type Found = Option<(string, Json)>

  /** `if json_str:` a text was accepted and it is not empty. */
  predicate Usable(found: Found)
  {
    found.Some? && |found.value.0| > 0
  }

  function Chosen(candidates: seq<string>, parse: Parser, strip: bool): Found
  {
    match FirstParsing(candidates, parse, strip, 0)
    case None => None
    case Some(i) =>
      var s := Prepare(candidates[i], strip);
      Some((s, parse(s).value))
  }

  /** The for-loop over matches that keeps the first one json.loads accepts. */
  method ParseFirst(candidates: seq<string>, parse: Parser, strip: bool) returns (found: Found)
    ensures found == Chosen(candidates, parse, strip)
  {
    found := None;
    var i := 0;
    while i < |candidates|
      invariant 0 <= i <= |candidates|
      invariant forall k :: 0 <= k < i ==> !Parses(parse, Prepare(candidates[k], strip))
    {
      var s := Prepare(candidates[i], strip);
      var attempt := parse(s);
      if attempt.Success? {
        found := Some((s, attempt.value));
        assert FirstParsing(candidates, parse, strip, 0) == Some(i);
        return;
      }
      i := i + 1;
    }
  }

  // ---------------------------------------------------------------- the cascade

  /** Generic fences are used only when there is no ```json block at all. */
  function FencedCandidates(text: string): seq<string>
  {
    var tagged := FencedBlocks(text, JsonFence, 0);
    if |tagged| > 0 then tagged else FencedBlocks(text, Fence, 0)
  }

  function FenceAttempt(text: string, parse: Parser): Found
  {
    if Contains(text, JsonFence) || Contains(text, Fence) then Chosen(FencedCandidates(text), parse, true)
    else None
  }

  function BraceAttempt(text: string, parse: Parser, prior: Found): Found
  {
    if Usable(prior) then prior
    else
      match Chosen(BraceSpans(text, 0), parse, false)
      case None => prior
      case Some(f) => Some(f)
  }

  /** The last attempt, and the error message it leaves when nothing was accepted. */
  function WholeAttempt(text: string, parse: Parser, prior: Found): (r: (Found, Option<string>))
    ensures r.1.Some? ==> !Usable(r.0) && StartsWith(r.1.value, NoJsonPrefix)
    ensures r.1.None? ==> Usable(r.0) || Parses(parse, "")
  {
    if Usable(prior) then (prior, None)
    else
      match parse(Strip(text))
      case Success(v) => (Some((Strip(text), v)), None)
      case Failure(e) => (prior, Some(NoJsonPrefix + e))
  }

  // ---------------------------------------------------------------- key normalisation

  /** Where one key of the parsed object goes. */
  datatype KeyRole = ScoreOf(canonical: string) | JustificationOf(canonical: string) | Unrecognised

  /** "P" followed by digits, or "Overall". */
  predicate IsCanonical(k: string)
  {
    k == "Overall" || (|k| >= 2 && k[0] == 'P' && IsDigits(k[1..]))
  }

  /** `f"P{p_num}"` for a digit string, "Overall" for "overall", nothing otherwise. */
  function CriterionKey(pNum: string): (r: Option<string>)
    ensures r.Some? ==> IsCanonical(r.value)
  {
    if IsDigits(pNum) then
      assert ("P" + pNum)[1..] == pNum;
      Some("P" + pNum)
    else if pNum == "overall" then Some("Overall")
    else None
  }

  /** `split('_')[0].replace('p', '')`: the criterion number part of a key. */
  function NumberPart(lk: string): string
  {
    Replace(Split(lk, "_")[0], "p", "")
  }

  /** The first test on a lower-cased key: it starts with 'p' and says "score" or is 'p's and digits. */
  predicate ScoreBranch(lk: string)
  {
    StartsWith(lk, "p") && (Contains(lk, "score") || IsDigits(Replace(lk, "p", "")))
  }

  /** The number a score key carries. */
  function ScoreNumber(lk: string): string
  {
    if Contains(lk, "_score") then NumberPart(lk) else Replace(lk, "p", "")
  }

  /** The second test: it starts with 'p' and says "justification". */
  predicate JustificationBranch(lk: string)
  {
    StartsWith(lk, "p") && Contains(lk, "justification")
  }

  /** The branches of the normalisation loop, applied to one lower-cased key. */
  function ClassifyLowered(lk: string): (r: KeyRole)
    ensures !r.Unrecognised? ==> IsCanonical(r.canonical)
  {
    if ScoreBranch(lk) then
      match CriterionKey(ScoreNumber(lk))
      case Some(c) => ScoreOf(c)
      case None => Unrecognised
    else if JustificationBranch(lk) then
      match CriterionKey(NumberPart(lk))
      case Some(c) => JustificationOf(c)
      case None => Unrecognised
    else if lk == "overall_score" then ScoreOf("Overall")
    else if lk == "overall_justification" then JustificationOf("Overall")
    else Unrecognised
  }

  /** Where one key goes: `lk = key.lower()`, then the branches. */
  function Classify(key: string): (r: KeyRole)
    ensures !r.Unrecognised? ==> IsCanonical(r.canonical)
  {
    ClassifyLowered(Lower(key))
  }

  /** The loop over the keys of a dict, inserting into the two maps in key order. */
  function NormaliseMembers(members: seq<(string, Json)>, scores: map<string, Json>, justifications: map<string, Json>)
    : (map<string, Json>, map<string, Json>)
    decreases |members|
  {
    if |members| == 0 then (scores, justifications)
    else
      var key, value := members[0].0, members[0].1;
      match Classify(key)
      case ScoreOf(c) => NormaliseMembers(members[1..], scores[c := value], justifications)
      case JustificationOf(c) => NormaliseMembers(members[1..], scores, justifications[c := value])
      case Unrecognised => NormaliseMembers(members[1..], scores, justifications)
  }

  /**
   * Iterating over a list: an element that is not a string has no `lower`; a string that
   * a branch recognises fails at `review_data[key]`. The first such element raises.
   */
  function ScanList(items: seq<Json>): Option<string>
  {
    if |items| == 0 then None
    else
      match items[0]
      case JString(k) =>
        if Classify(k).Unrecognised? then ScanList(items[1..])
        else Some("list indices must be integers or slices, not str")
      case _ => Some("'" + TypeName(items[0]) + "' object has no attribute 'lower'")
  }

  /** The outcome of the normalisation loop over whatever json.loads returned. */
  datatype Normalised = Normalised(scores: map<string, Json>, justifications: map<string, Json>) | Raised(message: string)

  function NormaliseValue(v: Json): Normalised
  {
    match v
    case JObject(members) =>
      var (s, j) := NormaliseMembers(members, map[], map[]);
      Normalised(s, j)
    case JArray(items) =>
      (match ScanList(items)
       case None => Normalised(map[], map[])
       case Some(m) => Raised(m))
    // iterating a string gives one-character keys, which no branch recognises (OneCharacterKeysIgnored)
    case JString(_) => Normalised(map[], map[])
    case _ => Raised("'" + TypeName(v) + "' object is not iterable")
  }

  /** The closing step: the maps found, and the message adjusted to what was found. */
  function FromValue(v: Json, err: Option<string>): Extraction
  {
    match NormaliseValue(v)
    case Normalised(s, j) =>
      if |s| > 0 then
        (match err
         case Some(e) => Extraction(s, j, Some("Warning: " + e + " but managed to extract some data"))
         case None => Extraction(s, j, None))
      else if err.None? then Extraction(s, j, Some(NoScores))
      else Extraction(s, j, err)
    case Raised(m) => Extraction(map[], map[], Some(BadJsonPrefix + m))
  }

  /** The three attempts in order: fences, then braces, then the whole text. */
  function Cascade(text: string, parse: Parser): (Found, Option<string>)
  {
    WholeAttempt(text, parse, BraceAttempt(text, parse, FenceAttempt(text, parse)))
  }

  /** After the attempts: normalise what was accepted, or report the message left. */
  function Conclude(found: Found, err: Option<string>): Extraction
  {
    if Usable(found) then FromValue(found.value.1, err) else Extraction(map[], map[], err)
  }

  /** The whole of extract_json_from_llm_response. */
  function Extract(text: string, parse: Parser): Extraction
  {
    if |text| == 0 then Extraction(map[], map[], Some(EmptyResponse))
    else if LooksLikeApiError(text) then Extraction(map[], map[], Some(ApiErrorMessage(text)))
    else Conclude(Cascade(text, parse).0, Cascade(text, parse).1)
  }

  // ---------------------------------------------------------------- the imperative extractor

  /** The loop over the parsed value's keys, inserting into the two maps in place. */
  method NormaliseInPlace(v: Json) returns (outcome: Normalised)
    ensures outcome == NormaliseValue(v)
  {
    match v {
      case JObject(members) =>
        var scores, justifications := NormaliseMembersInPlace(members);
        outcome := Normalised(scores, justifications);
      case JArray(items) =>
        var error := ScanListInPlace(items);
        outcome := if error.Some? then Raised(error.value) else Normalised(map[], map[]);
      case JString(_) =>
        outcome := Normalised(map[], map[]);
      case _ =>
        outcome := Raised("'" + TypeName(v) + "' object is not iterable");
    }
  }

  /** The loop over a dict's keys: each recognised key overwrites its slot in one of the two maps. */
  method NormaliseMembersInPlace(members: seq<(string, Json)>)
    returns (scores: map<string, Json>, justifications: map<string, Json>)
    ensures (scores, justifications) == NormaliseMembers(members, map[], map[])
  {
    scores, justifications := map[], map[];
    var i := 0;
    while i < |members|
      invariant 0 <= i <= |members|
      invariant NormaliseMembers(members[i..], scores, justifications) == NormaliseMembers(members, map[], map[])
    {
      var key, value := members[i].0, members[i].1;
      assert members[i..][1..] == members[i + 1..];
      match Classify(key) {
        case ScoreOf(c) => scores := scores[c := value];
        case JustificationOf(c) => justifications := justifications[c := value];
        case Unrecognised =>
      }
      i := i + 1;
    }
  }

  /** The loop over a list's items: the first item whose lowering or indexing raises stops it. */
  method ScanListInPlace(items: seq<Json>) returns (error: Option<string>)
    ensures error == ScanList(items)
  {
    var i := 0;
    while i < |items|
      invariant 0 <= i <= |items|
      invariant ScanList(items[i..]) == ScanList(items)
    {
      assert items[i..][1..] == items[i + 1..];
      match items[i] {
        case JString(k) =>
          if !Classify(k).Unrecognised? {
            return Some("list indices must be integers or slices, not str");
          }
        case _ =>
          return Some("'" + TypeName(items[i]) + "' object has no attribute 'lower'");
      }
      i := i + 1;
    }
    return None;
  }

  /** The three attempts, reassigning `json_str` and `error_msg` as the source does. */
  method LocateJson(text: string, parse: Parser) returns (jsonStr: Found, error: Option<string>)
    ensures (jsonStr, error) == Cascade(text, parse)
  {
    jsonStr := None;
    error := None;
    if Contains(text, JsonFence) || Contains(text, Fence) {
      var matches := FencedBlocks(text, JsonFence, 0);
      if |matches| == 0 {
        matches := FencedBlocks(text, Fence, 0);
      }
      jsonStr := ParseFirst(matches, parse, true);
    }
    assert jsonStr == FenceAttempt(text, parse);
    if !Usable(jsonStr) {
      var found := ParseFirst(BraceSpans(text, 0), parse, false);
      if found.Some? {
        jsonStr := found;
      }
    }
    assert jsonStr == BraceAttempt(text, parse, FenceAttempt(text, parse));
    if !Usable(jsonStr) {
      var whole := Strip(text);
      match parse(whole) {
        case Success(v) => jsonStr := Some((whole, v));
        case Failure(e) => error := Some(NoJsonPrefix + e);
      }
    }
  }

  /** extract_json_from_llm_response, step by step as the source runs it. */
  method ExtractJsonFromLlmResponse(text: string, parse: Parser)
    returns (scores: map<string, Json>, justifications: map<string, Json>, error: Option<string>)
    ensures Extraction(scores, justifications, error) == Extract(text, parse)
  {
    if |text| == 0 {
      return map[], map[], Some(EmptyResponse);
    }
    if LooksLikeApiError(text) {
      return map[], map[], Some(ApiErrorMessage(text));
    }
    var jsonStr;
    jsonStr, error := LocateJson(text, parse);
    scores, justifications := map[], map[];
    if Usable(jsonStr) {
      var outcome := NormaliseInPlace(jsonStr.value.1);
      match outcome {
        case Normalised(s, j) =>
          scores, justifications := s, j;
          if |scores| > 0 {
            match error {
              case Some(e) => error := Some("Warning: " + e + " but managed to extract some data");
              case None =>
            }
          } else if error.None? {
            error := Some(NoScores);
          }
        case Raised(m) =>
          error := Some(BadJsonPrefix + m);
      }
    }
  }

  // ---------------------------------------------------------------- properties

  /** The messages produced after the short-circuits: no JSON found, no scores, or a failed normalisation. */
  predicate LaterMessage(m: string)
  {
    StartsWith(m, NoJsonPrefix) || m == NoScores || StartsWith(m, BadJsonPrefix)
  }

  lemma ConcludeMessage(found: Found, err: Option<string>)
    requires Usable(found) ==> err.None?
    requires err.Some? ==> StartsWith(err.value, NoJsonPrefix)
    ensures Conclude(found, err).error.None? || LaterMessage(Conclude(found, err).error.value)
  {
    if Usable(found) {
      match NormaliseValue(found.value.1)
      case Normalised(s, j) =>
      case Raised(m) =>
        assert StartsWith(BadJsonPrefix + m, BadJsonPrefix);
    }
  }

  /** Which message the extractor leaves, by the branch it took. */
  lemma ExtractMessages(text: string, parse: Parser)
    ensures |text| == 0 ==> Extract(text, parse) == Extraction(map[], map[], Some(EmptyResponse))
    ensures |text| > 0 && LooksLikeApiError(text) ==>
              Extract(text, parse) == Extraction(map[], map[], Some(ApiErrorMessage(text)))
    ensures |text| > 0 && !LooksLikeApiError(text) ==>
              Extract(text, parse).error.None? || LaterMessage(Extract(text, parse).error.value)
  {
    if |text| > 0 && !LooksLikeApiError(text) {
      var (found, err) := Cascade(text, parse);
      ConcludeMessage(found, err);
    }
  }

  predicate HasPrefix(e: Option<string>, prefix: string)
  {
    e.Some? && StartsWith(e.value, prefix)
  }

  lemma FirstChar(m: string, prefix: string)
    requires StartsWith(m, prefix) && |prefix| > 0
    ensures m[0] == prefix[0]
  {
    assert m[..|prefix|][0] == m[0];
  }

  lemma NotPrefixedByFirstChar(m: string, prefix: string)
    requires |m| > 0 && |prefix| > 0 && m[0] != prefix[0]
    ensures !StartsWith(m, prefix)
  {
    if StartsWith(m, prefix) {
      FirstChar(m, prefix);
    }
  }

  /** A later message starts with 'C' or 'E'. */
  lemma LaterMessageInitial(m: string)
    requires LaterMessage(m)
    ensures |m| > 0 && (m[0] == 'C' || m[0] == 'E')
  {
    if m == NoScores {
      assert NoScores[0] == 'C';
    } else if StartsWith(m, NoJsonPrefix) {
      FirstChar(m, NoJsonPrefix);
    } else {
      FirstChar(m, BadJsonPrefix);
    }
  }

  /**
   * The message starts with "API error: " exactly when the input is non-empty and the
   * short-circuit fires, and then nothing is extracted whatever the parser would say.
   */
  lemma {:induction false} ApiErrorIff(text: string, parse: Parser)
    ensures HasPrefix(Extract(text, parse).error, ApiErrorPrefix) <==> (|text| > 0 && LooksLikeApiError(text))
    ensures |text| > 0 && LooksLikeApiError(text) ==>
              Extract(text, parse) == Extraction(map[], map[], Some(ApiErrorMessage(text)))
  {
    ExtractMessages(text, parse);
    var e := Extract(text, parse).error;
    if |text| == 0 {
      NotPrefixedByFirstChar(EmptyResponse, ApiErrorPrefix);
    } else if LooksLikeApiError(text) {
      assert StartsWith(ApiErrorMessage(text), ApiErrorPrefix);
    } else if e.Some? {
      LaterMessageInitial(e.value);
      NotPrefixedByFirstChar(e.value, ApiErrorPrefix);
    }
  }

  /**
   * The "Warning: ... but managed to extract some data" message is never produced: a message
   * is left only when no JSON text was accepted.
   */
  lemma {:induction false} NoWarningEver(text: string, parse: Parser)
    ensures !HasPrefix(Extract(text, parse).error, "Warning: ")
  {
    ExtractMessages(text, parse);
    var e := Extract(text, parse).error;
    if |text| == 0 {
      NotPrefixedByFirstChar(EmptyResponse, "Warning: ");
    } else if LooksLikeApiError(text) {
      NotPrefixedByFirstChar(ApiErrorMessage(text), "Warning: ");
    } else if e.Some? {
      LaterMessageInitial(e.value);
      NotPrefixedByFirstChar(e.value, "Warning: ");
    }
  }

  /** No two adjacent characters of `s` are `a` then `b`. */
  predicate NoPair(s: string, a: char, b: char)
  {
    forall i :: 0 <= i < |s| - 1 ==> !(s[i] == a && s[i + 1] == b)
  }

  /** A needle opening with the pair `a`, `b` cannot occur in a text without that pair. */
  lemma AbsentPair(s: string, needle: string, a: char, b: char)
    requires |needle| >= 2 && needle[0] == a && needle[1] == b && NoPair(s, a, b)
    ensures !Contains(s, needle)
  {
  }

  /** Text such as "rate limit exceeded" lacks the word "error" and is not short-circuited. */
  lemma RateLimitWithoutErrorWordIsParsed()
    ensures !LooksLikeApiError("rate limit exceeded")
  {
    var l := Lower("rate limit exceeded");
    assert l == "rate limit exceeded";
    AbsentPair(l, "error", 'e', 'r');
  }

  /**
   * With a parser that rejects the empty text, as json.loads does, there is no message
   * exactly when some score was extracted.
   */
  lemma {:induction false} NoMessageIffScores(text: string, parse: Parser)
    requires !Parses(parse, "")
    ensures Extract(text, parse).error.None? <==> |Extract(text, parse).scores| > 0
  {
    if |text| > 0 && !LooksLikeApiError(text) {
      var (found, err) := Cascade(text, parse);
      ExtractStep(text, parse);
      if Usable(found) {
        match NormaliseValue(found.value.1)
        case Normalised(s, j) =>
        case Raised(m) =>
      }
    }
  }

  // ---- the order of the cascade

  lemma ExtractStep(text: string, parse: Parser)
    requires |text| > 0 && !LooksLikeApiError(text)
    ensures Extract(text, parse) == Conclude(Cascade(text, parse).0, Cascade(text, parse).1)
  {
  }

  lemma BraceStep(text: string, parse: Parser, prior: Found)
    requires !Usable(prior) && Usable(Chosen(BraceSpans(text, 0), parse, false))
    ensures BraceAttempt(text, parse, prior) == Chosen(BraceSpans(text, 0), parse, false)
  {
  }

  lemma WholeStep(text: string, parse: Parser, prior: Found)
    requires Usable(prior)
    ensures WholeAttempt(text, parse, prior) == (prior, None)
  {
  }

  /** A ```json block that parses wins, the first such block in the text, and plain fences are not consulted. */
  lemma TaggedFenceFirst(text: string, parse: Parser)
    requires !LooksLikeApiError(text)
    requires |FencedBlocks(text, JsonFence, 0)| > 0
    requires Usable(Chosen(FencedBlocks(text, JsonFence, 0), parse, true))
    ensures Extract(text, parse) == FromValue(Chosen(FencedBlocks(text, JsonFence, 0), parse, true).value.1, None)
  {
    var found := Chosen(FencedBlocks(text, JsonFence, 0), parse, true);
    assert FenceAttempt(text, parse) == found;
    assert Cascade(text, parse) == (found, None);
  }

  /** Plain ``` fences are tried only when the text has no ```json block at all. */
  lemma PlainFenceOnlyWithoutTagged(text: string, parse: Parser)
    requires !LooksLikeApiError(text)
    requires |FencedBlocks(text, JsonFence, 0)| == 0 && |FencedBlocks(text, Fence, 0)| > 0
    requires Usable(Chosen(FencedBlocks(text, Fence, 0), parse, true))
    ensures Extract(text, parse) == FromValue(Chosen(FencedBlocks(text, Fence, 0), parse, true).value.1, None)
  {
    var found := Chosen(FencedBlocks(text, Fence, 0), parse, true);
    assert FenceAttempt(text, parse) == found;
    assert Cascade(text, parse) == (found, None);
  }

  /**
   * Once a ```json block exists, only ```json blocks are tried in the fence attempt: the
   * generic blocks are not consulted, whether or not a tagged block parses.
   */
  lemma TaggedFenceHidesPlain(text: string, parse: Parser)
    requires |FencedBlocks(text, JsonFence, 0)| > 0
    ensures FenceAttempt(text, parse) == Chosen(FencedBlocks(text, JsonFence, 0), parse, true)
  {
    FencedBlocksUnfold(text, JsonFence, 0);
    assert Find(text, JsonFence, 0).Some?;
  }

  /**
   * A ```json block that exists but does not parse hides every generic block: the result
   * is what the brace spans and the whole text give, whatever the generic blocks hold.
   */
  lemma UnparsableTaggedSkipsPlain(text: string, parse: Parser)
    requires |text| > 0 && !LooksLikeApiError(text)
    requires |FencedBlocks(text, JsonFence, 0)| > 0
    requires forall c :: c in FencedBlocks(text, JsonFence, 0) ==> !Parses(parse, Strip(c))
    ensures Extract(text, parse) == Conclude(WholeAttempt(text, parse, BraceAttempt(text, parse, None)).0,
                                             WholeAttempt(text, parse, BraceAttempt(text, parse, None)).1)
  {
    TaggedFenceHidesPlain(text, parse);
    NoneChosen(FencedBlocks(text, JsonFence, 0), parse, true);
    ExtractStep(text, parse);
  }

  /** Brace spans are tried only when no fenced candidate gave a usable text; the first one that parses wins. */
  lemma BracesAfterFences(text: string, parse: Parser)
    requires |text| > 0 && !LooksLikeApiError(text)
    requires !Usable(FenceAttempt(text, parse))
    requires Usable(Chosen(BraceSpans(text, 0), parse, false))
    ensures Extract(text, parse) == FromValue(Chosen(BraceSpans(text, 0), parse, false).value.1, None)
  {
    var found := Chosen(BraceSpans(text, 0), parse, false);
    BraceStep(text, parse, FenceAttempt(text, parse));
    WholeStep(text, parse, found);
    ExtractStep(text, parse);
  }

  /** The whole stripped text is the last resort. */
  lemma WholeTextLast(text: string, parse: Parser, v: Json)
    requires |text| > 0 && !LooksLikeApiError(text)
    requires !Usable(BraceAttempt(text, parse, FenceAttempt(text, parse)))
    requires parse(Strip(text)) == Success(v) && |Strip(text)| > 0
    ensures Extract(text, parse) == FromValue(v, None)
  {
    assert Cascade(text, parse) == (Some((Strip(text), v)), None);
  }

  /** When no candidate and not the whole text parses, both maps are empty and the message says so. */
  lemma {:induction false} NothingParses(text: string, parse: Parser, e: string)
    requires |text| > 0 && !LooksLikeApiError(text)
    requires forall c :: c in FencedCandidates(text) ==> !Parses(parse, Strip(c))
    requires forall c :: c in BraceSpans(text, 0) ==> !Parses(parse, c)
    requires parse(Strip(text)) == Failure(e)
    ensures Extract(text, parse) == Extraction(map[], map[], Some(NoJsonPrefix + e))
  {
    NoneChosen(FencedCandidates(text), parse, true);
    NoneChosen(BraceSpans(text, 0), parse, false);
    assert FenceAttempt(text, parse) == None;
    assert BraceAttempt(text, parse, None) == None;
    assert Cascade(text, parse) == (None, Some(NoJsonPrefix + e));
  }

  /** When no candidate parses, none is chosen. */
  lemma NoneChosen(candidates: seq<string>, parse: Parser, strip: bool)
    requires forall c :: c in candidates ==> !Parses(parse, Prepare(c, strip))
    ensures Chosen(candidates, parse, strip) == None
  {
    assert FirstParsing(candidates, parse, strip, 0).None?;
  }

  // ---- key normalisation

  lemma {:induction false} NormaliseMembersCanonical(members: seq<(string, Json)>, scores: map<string, Json>, justifications: map<string, Json>)
    requires forall k :: k in scores ==> IsCanonical(k)
    requires forall k :: k in justifications ==> IsCanonical(k)
    ensures forall k :: k in NormaliseMembers(members, scores, justifications).0 ==> IsCanonical(k)
    ensures forall k :: k in NormaliseMembers(members, scores, justifications).1 ==> IsCanonical(k)
    decreases |members|
  {
    if |members| > 0 {
      match Classify(members[0].0)
      case ScoreOf(c) => NormaliseMembersCanonical(members[1..], scores[c := members[0].1], justifications);
      case JustificationOf(c) => NormaliseMembersCanonical(members[1..], scores, justifications[c := members[0].1]);
      case Unrecognised => NormaliseMembersCanonical(members[1..], scores, justifications);
    }
  }

  /** Every key of both returned maps is "P" followed by digits, or "Overall". */
  lemma CanonicalKeys(text: string, parse: Parser)
    ensures forall k :: k in Extract(text, parse).scores ==> IsCanonical(k)
    ensures forall k :: k in Extract(text, parse).justifications ==> IsCanonical(k)
  {
    if |text| > 0 && !LooksLikeApiError(text) {
      ExtractStep(text, parse);
      ConcludeCanonical(Cascade(text, parse).0, Cascade(text, parse).1);
    }
  }

  lemma ConcludeCanonical(found: Found, err: Option<string>)
    ensures forall k :: k in Conclude(found, err).scores ==> IsCanonical(k)
    ensures forall k :: k in Conclude(found, err).justifications ==> IsCanonical(k)
  {
    if Usable(found) && found.value.1.JObject? {
      NormaliseMembersCanonical(found.value.1.members, map[], map[]);
    }
  }


  function Get(m: map<string, Json>, k: string): Option<Json>
  {
    if k in m then Some(m[k]) else None
  }

  /** The value of the last member whose key names the score of criterion `c`. */
  function LastScore(members: seq<(string, Json)>, c: string): Option<Json>
  {
    if |members| == 0 then None
    else if Classify(members[|members| - 1].0) == ScoreOf(c) then Some(members[|members| - 1].1)
    else LastScore(members[..|members| - 1], c)
  }

  /** The value of the last member whose key names the justification of criterion `c`. */
  function LastJustification(members: seq<(string, Json)>, c: string): Option<Json>
  {
    if |members| == 0 then None
    else if Classify(members[|members| - 1].0) == JustificationOf(c) then Some(members[|members| - 1].1)
    else LastJustification(members[..|members| - 1], c)
  }

  function Override(later: Option<Json>, earlier: Option<Json>): Option<Json>
  {
    if later.Some? then later else earlier
  }

  lemma {:induction false} LastScoreCons(members: seq<(string, Json)>, c: string)
    requires |members| > 0
    ensures LastScore(members, c) ==
            Override(LastScore(members[1..], c),
                     if Classify(members[0].0) == ScoreOf(c) then Some(members[0].1) else None)
    ensures LastJustification(members, c) ==
            Override(LastJustification(members[1..], c),
                     if Classify(members[0].0) == JustificationOf(c) then Some(members[0].1) else None)
    decreases |members|
  {
    if |members| > 1 {
      var init := members[..|members| - 1];
      assert init[1..] == members[1..][..|members[1..]| - 1];
      assert init[0] == members[0];
      LastScoreCons(init, c);
    }
  }

  /**
   * Values are copied unchanged and the last key spelling a criterion wins: after the loop,
   * criterion `c` holds the value of the last member naming it, or what it held before.
   */
  lemma {:induction false} NormaliseMembersLastWins(members: seq<(string, Json)>, scores: map<string, Json>,
                                                    justifications: map<string, Json>, c: string)
    ensures Get(NormaliseMembers(members, scores, justifications).0, c) == Override(LastScore(members, c), Get(scores, c))
    ensures Get(NormaliseMembers(members, scores, justifications).1, c)
            == Override(LastJustification(members, c), Get(justifications, c))
    decreases |members|
  {
    if |members| > 0 {
      LastScoreCons(members, c);
      var key, value := members[0].0, members[0].1;
      match Classify(key)
      case ScoreOf(d) => NormaliseMembersLastWins(members[1..], scores[d := value], justifications, c);
      case JustificationOf(d) => NormaliseMembersLastWins(members[1..], scores, justifications[d := value], c);
      case Unrecognised => NormaliseMembersLastWins(members[1..], scores, justifications, c);
    }
  }

  /** A parsed object without any score key gives empty scores and the "no scores" message. */
  lemma ObjectWithoutScores(members: seq<(string, Json)>)
    requires forall i :: 0 <= i < |members| ==> !Classify(members[i].0).ScoreOf?
    ensures FromValue(JObject(members), None).scores == map[]
    ensures FromValue(JObject(members), None).error == Some(NoScores)
  {
    var s := NormaliseMembers(members, map[], map[]).0;
    forall c | c in s
      ensures false
    {
      NormaliseMembersLastWins(members, map[], map[], c);
      LastScoreFound(members, c);
    }
  }

  lemma {:induction false} LastScoreFound(members: seq<(string, Json)>, c: string)
    requires LastScore(members, c).Some?
    ensures exists i :: 0 <= i < |members| && Classify(members[i].0) == ScoreOf(c)
    decreases |members|
  {
    if Classify(members[|members| - 1].0) != ScoreOf(c) {
      var init := members[..|members| - 1];
      LastScoreFound(init, c);
      var i :| 0 <= i < |init| && Classify(init[i].0) == ScoreOf(c);
      assert members[i] == init[i];
    }
  }

  // ---- the spellings the normalisation recognises

  lemma LowerKeepsLowerCase(s: string)
    requires forall i :: 0 <= i < |s| ==> !('A' <= s[i] <= 'Z')
    ensures Lower(s) == s
  {
  }

  /** A key made of "p", digits and a lower-case tail is already lower case. */
  lemma NumberedKeyLowerCase(d: string, tail: string)
    requires IsDigits(d) && forall i :: 0 <= i < |tail| ==> !('A' <= tail[i] <= 'Z')
    ensures Lower("p" + d + tail) == "p" + d + tail
  {
    var c := "p" + d + tail;
    forall i | 0 <= i < |c|
      ensures !('A' <= c[i] <= 'Z')
    {
      if i == 0 {
      } else if i <= |d| {
        assert c[i] == d[i - 1];
      } else {
        assert c[i] == tail[i - 1 - |d|];
      }
    }
    LowerKeepsLowerCase(c);
  }

  /** Taking the 'p's out of "p" + d gives d back when d has no 'p'. */
  lemma StripP(d: string)
    requires NoChar(d, 'p')
    ensures Replace("p" + d, "p", "") == d
  {
    var s := "p" + d;
    assert s[..1] == "p";
    assert s[1..] == d;
    NoCharNoOccurrence(d, 'p');
    ReplaceAbsent(d, "p", "");
  }

  /** The number part of "p" + d + "_" + rest is d when d has neither 'p' nor '_'. */
  lemma NumberPartOf(d: string, rest: string)
    requires NoChar(d, 'p') && NoChar(d, '_')
    ensures NumberPart("p" + d + "_" + rest) == d
  {
    var lk := "p" + d + "_" + rest;
    assert lk[1 + |d|..1 + |d| + 1] == "_";
    assert OccursAt(lk, "_", 1 + |d|);
    var i := Find(lk, "_", 0).value;
    assert lk[i..i + 1] == [lk[i]];
    assert i == 1 + |d|;
    SplitHead(lk, "_");
    assert lk[..i] == "p" + d;
    StripP(d);
  }

  /** "p<d>_score" is lower case, starts with 'p' and contains "score" and "_score". */
  lemma ScoreKeyFacts(d: string)
    requires IsDigits(d)
    ensures var a := "p" + d + "_score";
            Lower(a) == a && StartsWith(a, "p") && Contains(a, "score") && Contains(a, "_score")
  {
    var a := "p" + d + "_score";
    NumberedKeyLowerCase(d, "_score");
    assert a[..1] == "p";
    assert a[|d| + 2..|d| + 7] == "score";
    ContainsAt(a, "score", |d| + 2);
    assert a[|d| + 1..|d| + 7] == "_score";
    ContainsAt(a, "_score", |d| + 1);
  }

  /** "p<d>_score" is the score of criterion P<d>. */
  lemma {:induction false} ScoreSpelling(d: string)
    requires IsDigits(d)
    ensures Classify("p" + d + "_score") == ScoreOf("P" + d)
  {
    var a := "p" + d + "_score";
    ScoreKeyFacts(d);
    assert ScoreBranch(a);
    NumberPartOf(d, "score");
    assert "p" + d + "_" + "score" == a;
    assert ScoreNumber(a) == d;
    assert CriterionKey(d) == Some("P" + d);
  }

  /** "P<d>" and "p<d>" are the score of criterion P<d>. */
  lemma {:induction false} BareNumberSpellings(d: string)
    requires IsDigits(d)
    ensures Classify("P" + d) == ScoreOf("P" + d)
    ensures Classify("p" + d) == ScoreOf("P" + d)
  {
    var b := "p" + d;
    LowerKeepsLowerCase(b);
    assert Lower("P" + d) == b;
    assert StartsWith(b, "p") by {
      assert b[..1] == "p";
    }
    StripP(d);
    assert ScoreBranch(b);
    assert !Contains(b, "_score");
    assert ScoreNumber(b) == d;
    assert CriterionKey(d) == Some("P" + d);
  }

  /** "p<d>_justification" has no "score" in it and is not all digits once the 'p's are gone. */
  lemma JustificationNotScore(d: string)
    requires IsDigits(d)
    ensures !ScoreBranch("p" + d + "_justification")
  {
    var c := "p" + d + "_justification";
    assert NoPair(c, 's', 'c') by {
      forall i | 0 <= i < |c| - 1
        ensures !(c[i] == 's' && c[i + 1] == 'c')
      {
        if i > |d| {
          assert c[i] == "_justification"[i - |d| - 1];
          assert c[i + 1] == "_justification"[i - |d|];
        }
      }
    }
    AbsentPair(c, "score", 's', 'c');
    assert c == "p" + (d + "_justification");
    StripP(d + "_justification");
    assert (d + "_justification")[|d|] == '_';
  }

  lemma JustificationKeyFacts(d: string)
    requires IsDigits(d)
    ensures var c := "p" + d + "_justification";
            Lower(c) == c && JustificationBranch(c) && NumberPart(c) == d
  {
    var c := "p" + d + "_justification";
    NumberedKeyLowerCase(d, "_justification");
    JustificationBranchOf(d);
    NumberPartOf(d, "justification");
    assert "p" + d + "_" + "justification" == c;
  }

  lemma JustificationBranchOf(d: string)
    ensures JustificationBranch("p" + d + "_justification")
  {
    var c := "p" + d + "_justification";
    assert c[..1] == "p";
    assert c[|d| + 2..|d| + 15] == "justification";
    ContainsAt(c, "justification", |d| + 2);
  }

  /** "p<d>_justification" is the justification of criterion P<d>. */
  lemma {:induction false} JustificationSpelling(d: string)
    requires IsDigits(d)
    ensures Classify("p" + d + "_justification") == JustificationOf("P" + d)
  {
    JustificationKeyFacts(d);
    JustificationNotScore(d);
    assert CriterionKey(d) == Some("P" + d);
  }

  /** "overall_score" and "overall_justification" name the overall criterion. */
  lemma OverallSpellings()
    ensures Classify("overall_score") == ScoreOf("Overall")
    ensures Classify("overall_justification") == JustificationOf("Overall")
  {
    LowerKeepsLowerCase("overall_score");
    LowerKeepsLowerCase("overall_justification");
    assert "overall_score"[0] == 'o' && "overall_justification"[0] == 'o';
    assert !StartsWith("overall_score", "p");
    assert !StartsWith("overall_justification", "p");
  }

  /** A bare "Overall" key is not one of the recognised spellings. */
  lemma BareOverallIgnored()
    ensures Classify("Overall").Unrecognised?
    ensures Classify("overall").Unrecognised?
  {
    assert Lower("Overall") == "overall";
    LowerKeepsLowerCase("overall");
    assert "overall"[0] == 'o';
    assert !StartsWith("overall", "p");
    assert |"overall"| != |"overall_score"| && |"overall"| != |"overall_justification"|;
  }

  /** Iterating over a decoded string yields one-character keys, none of which is recognised. */
  lemma OneCharacterKeysIgnored(c: char)
    ensures Classify([c]).Unrecognised?
  {
    var lk := Lower([c]);
    if StartsWith(lk, "p") {
      assert Replace(lk, "p", "") == "";
    }
  }
}
