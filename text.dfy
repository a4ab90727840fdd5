/**
 * The few operations of Python's `str` that the core relies on, over `seq<char>`:
 * `in`, `find`, `rfind`, `strip`, `lower`, `replace`, `split`, `join`, `isdigit`,
 * integer formatting and `os.path.join`.
 */
module Text {
  import opened Wrappers

  predicate OccursAt(s: string, needle: string, i: int)
  {
    0 <= i && i + |needle| <= |s| && s[i..i + |needle|] == needle
  }

  /** `s.find(needle, from)`: the first index at or after `from` where `needle` occurs. */
  function Find(s: string, needle: string, from: nat): (r: Option<nat>)
    ensures r.Some? ==> from <= r.value && OccursAt(s, needle, r.value)
    ensures r.Some? ==> forall k :: from <= k < r.value ==> !OccursAt(s, needle, k)
    ensures r.None? ==> forall k :: from <= k ==> !OccursAt(s, needle, k)
    decreases |s| - from
  {
    if from + |needle| > |s| then None
    else if s[from..from + |needle|] == needle then Some(from)
    else Find(s, needle, from + 1)
  }

  /** `needle in s`. */
  predicate Contains(s: string, needle: string)
  {
    Find(s, needle, 0).Some?
  }

  lemma ContainsAt(s: string, needle: string, i: int)
    requires OccursAt(s, needle, i)
    ensures Contains(s, needle)
  {
  }

  /** An occurrence inside a slice is an occurrence in the whole text. */
  lemma OccursInSlice(s: string, a: nat, e: nat, needle: string, k: nat)
    requires a <= e <= |s| && OccursAt(s[a..e], needle, k)
    ensures OccursAt(s, needle, a + k) && a + k + |needle| <= e
  {
    forall t | 0 <= t < |needle|
      ensures s[a + k + t] == needle[t]
    {
      assert s[a..e][k..k + |needle|][t] == needle[t];
    }
    assert s[a + k..a + k + |needle|] == needle;
  }

  /** `s.rfind(c)` for a one-character needle: the last index holding `c`. */
  function RFindChar(s: string, c: char): (r: Option<nat>)
    ensures r.Some? ==> r.value < |s| && s[r.value] == c
    ensures r.Some? ==> forall k :: r.value < k < |s| ==> s[k] != c
    ensures r.None? ==> forall k :: 0 <= k < |s| ==> s[k] != c
  {
    if |s| == 0 then None
    else if s[|s| - 1] == c then Some(|s| - 1)
    else RFindChar(s[..|s| - 1], c)
  }

  /** The characters `str.isspace` accepts, hence the ones `str.strip()` removes. */
  predicate IsSpace(c: char)
  {
    || c == ' ' || '\t' <= c <= '\r' || '\U{1C}' <= c <= '\U{1F}' || c == '\U{85}' || c == '\U{A0}'
    || c == '\U{1680}' || '\U{2000}' <= c <= '\U{200A}' || c == '\U{2028}' || c == '\U{2029}'
    || c == '\U{202F}' || c == '\U{205F}' || c == '\U{3000}'
  }

  function TrimStart(s: string): (r: string)
    ensures |r| <= |s| && r == s[|s| - |r|..]
    ensures |r| == 0 || !IsSpace(r[0])
    ensures forall i :: 0 <= i < |s| - |r| ==> IsSpace(s[i])
  {
    if |s| > 0 && IsSpace(s[0]) then TrimStart(s[1..]) else s
  }

  function TrimEnd(s: string): (r: string)
    ensures |r| <= |s| && r == s[..|r|]
    ensures |r| == 0 || !IsSpace(r[|r| - 1])
    ensures forall i :: |r| <= i < |s| ==> IsSpace(s[i])
  {
    if |s| > 0 && IsSpace(s[|s| - 1]) then TrimEnd(s[..|s| - 1]) else s
  }

  /** `s.strip()`. */
  function Strip(s: string): string
  {
    TrimEnd(TrimStart(s))
  }

  /** Stripping twice is stripping once. */
  lemma StripIdempotent(s: string)
    ensures Strip(Strip(s)) == Strip(s)
  {
    var t := TrimStart(s);
    var r := TrimEnd(t);
    if |r| > 0 {
      assert r[0] == t[0];
      TrimStartFixed(r);
      TrimEndFixed(r);
      assert Strip(r) == TrimEnd(TrimStart(r));
    } else {
      assert Strip(r) == TrimEnd(TrimStart(r));
    }
  }

  lemma TrimStartFixed(r: string)
    requires |r| > 0 && !IsSpace(r[0])
    ensures TrimStart(r) == r
  {
  }

  lemma TrimEndFixed(r: string)
    requires |r| > 0 && !IsSpace(r[|r| - 1])
    ensures TrimEnd(r) == r
  {
  }

  function LowerChar(c: char): char
  {
    if 'A' <= c <= 'Z' then (c as int + 32) as char else c
  }

  /** `s.lower()` on ASCII letters; every other character is kept. */
  function Lower(s: string): (r: string)
    ensures |r| == |s|
    ensures forall i :: 0 <= i < |s| ==> r[i] == LowerChar(s[i])
  {
    seq(|s|, i requires 0 <= i < |s| => LowerChar(s[i]))
  }

  predicate IsDigit(c: char)
  {
    '0' <= c <= '9'
  }

  /** `s.isdigit()` on ASCII digits: true for a non-empty run of digits only. */
  predicate IsDigits(s: string)
  {
    |s| > 0 && forall i :: 0 <= i < |s| ==> IsDigit(s[i])
  }

  /** `s.startswith(p)`. */
  predicate StartsWith(s: string, p: string)
  {
    |p| <= |s| && s[..|p|] == p
  }

  /** `s.endswith(p)`. */
  predicate EndsWith(s: string, p: string)
  {
    |p| <= |s| && s[|s| - |p|..] == p
  }

  /** A concatenation starts with its first part and ends with its last. */
  lemma FirstAndLast(first: string, middle: string, rest: string, last: string)
    ensures StartsWith(first + middle + rest + last, first)
    ensures EndsWith(first + middle + rest + last, last)
  {
    var s := first + middle + rest + last;
    assert s[..|first|] == first;
    assert s[|s| - |last|..] == last;
  }

  /** `s.replace(pat, rep)`: every non-overlapping occurrence, scanning left to right. */
  function Replace(s: string, pat: string, rep: string): string
    requires |pat| > 0
    decreases |s|
  {
    if |s| < |pat| then s
    else if s[..|pat|] == pat then rep + Replace(s[|pat|..], pat, rep)
    else [s[0]] + Replace(s[1..], pat, rep)
  }

  /** `s.split(sep)`, which Python refuses for an empty separator. */
  function Split(s: string, sep: string): (parts: seq<string>)
    requires |sep| > 0
    ensures |parts| >= 1
    decreases |s|
  {
    if |s| < |sep| then [s]
    else if s[..|sep|] == sep then [""] + Split(s[|sep|..], sep)
    else
      var rest := Split(s[1..], sep);
      [[s[0]] + rest[0]] + rest[1..]
  }

  /** `sep.join(parts)`. */
  function Join(parts: seq<string>, sep: string): string
  {
    if |parts| == 0 then ""
    else if |parts| == 1 then parts[0]
    else parts[0] + sep + Join(parts[1..], sep)
  }

  /** `replace` agrees with its textbook definition: split on the pattern, join with the replacement. */
  lemma {:induction false} ReplaceIsSplitJoin(s: string, pat: string, rep: string)
    requires |pat| > 0
    ensures Replace(s, pat, rep) == Join(Split(s, pat), rep)
    decreases |s|
  {
    if |s| < |pat| {
    } else if s[..|pat|] == pat {
      ReplaceIsSplitJoin(s[|pat|..], pat, rep);
      JoinLeadingEmpty(Split(s[|pat|..], pat), rep);
    } else {
      ReplaceIsSplitJoin(s[1..], pat, rep);
      JoinExtendsFirst(s[0], Split(s[1..], pat), rep);
    }
  }

  /** An empty first part contributes only the separator. */
  lemma JoinLeadingEmpty(rest: seq<string>, sep: string)
    requires |rest| >= 1
    ensures Join([""] + rest, sep) == sep + Join(rest, sep)
  {
    assert ([""] + rest)[1..] == rest;
  }

  /** A character put in front of the first part lands in front of the joined text. */
  lemma JoinExtendsFirst(c: char, rest: seq<string>, sep: string)
    requires |rest| >= 1
    ensures Join([[c] + rest[0]] + rest[1..], sep) == [c] + Join(rest, sep)
  {
    var parts := [[c] + rest[0]] + rest[1..];
    if |rest| == 1 {
      assert Join(parts, sep) == [c] + rest[0];
    } else {
      assert parts[1..] == rest[1..];
      assert Join(rest, sep) == rest[0] + sep + Join(rest[1..], sep);
      assert Join(parts, sep) == ([c] + rest[0]) + sep + Join(rest[1..], sep);
    }
  }

  /** Replacing a pattern by itself changes nothing. */
  lemma {:induction false} ReplaceBySelf(s: string, pat: string)
    requires |pat| > 0
    ensures Replace(s, pat, pat) == s
    decreases |s|
  {
    if |s| < |pat| {
    } else if s[..|pat|] == pat {
      ReplaceBySelf(s[|pat|..], pat);
      assert s == s[..|pat|] + s[|pat|..];
    } else {
      ReplaceBySelf(s[1..], pat);
      assert s == [s[0]] + s[1..];
    }
  }

  /** Joining the pieces of a split with the same separator gives back the text. */
  lemma SplitJoinRoundTrip(s: string, sep: string)
    requires |sep| > 0
    ensures Join(Split(s, sep), sep) == s
  {
    ReplaceIsSplitJoin(s, sep, sep);
    ReplaceBySelf(s, sep);
  }

  /** A pattern that does not occur is left alone. */
  lemma {:induction false} ReplaceAbsent(s: string, pat: string, rep: string)
    requires |pat| > 0
    requires forall k :: 0 <= k ==> !OccursAt(s, pat, k)
    ensures Replace(s, pat, rep) == s
    decreases |s|
  {
    if |s| < |pat| {
    } else {
      assert !OccursAt(s, pat, 0);
      assert s[..|pat|] == s[0..0 + |pat|];
      forall k | 0 <= k
        ensures !OccursAt(s[1..], pat, k)
      {
        if OccursAt(s[1..], pat, k) {
          assert s[1..][k..k + |pat|] == s[k + 1..k + 1 + |pat|];
          assert OccursAt(s, pat, k + 1);
        }
      }
      ReplaceAbsent(s[1..], pat, rep);
      assert s == [s[0]] + s[1..];
    }
  }

  /** `s.split(sep)[0]` is what precedes the first separator, or all of `s`. */
  lemma {:induction false} SplitHead(s: string, sep: string)
    requires |sep| > 0
    ensures Split(s, sep)[0] == (match Find(s, sep, 0) case Some(i) => s[..i] case None => s)
    decreases |s|
  {
    if |s| < |sep| {
    } else if s[..|sep|] == sep {
      assert OccursAt(s, sep, 0);
    } else {
      SplitHead(s[1..], sep);
      assert !OccursAt(s, sep, 0);
      FindShift(s, sep);
    }
  }

  /** Where the first occurrence sits in `s` when it is not at the front. */
  lemma FindShift(s: string, sep: string)
    requires |s| >= 1 && !OccursAt(s, sep, 0)
    ensures match Find(s, sep, 0)
            case Some(i) => i >= 1 && Find(s[1..], sep, 0) == Some(i - 1)
            case None => Find(s[1..], sep, 0).None?
  {
    var t := s[1..];
    forall k | 0 <= k
      ensures OccursAt(t, sep, k) <==> OccursAt(s, sep, k + 1)
    {
      if k + |sep| <= |t| {
        assert t[k..k + |sep|] == s[k + 1..k + 1 + |sep|];
      }
    }
    match Find(s, sep, 0)
    case Some(i) =>
      assert OccursAt(t, sep, i - 1);
    case None =>
  }

  function DigitChar(d: nat): (c: char)
    requires d < 10
    ensures IsDigit(c)
  {
    ('0' as int + d) as char
  }

  /** `str(n)` for a natural number: its decimal digits, most significant first, no leading zero. */
  function Decimal(n: nat): (r: string)
    ensures IsDigits(r)
    ensures n < 10 <==> |r| == 1
  {
    if n < 10 then [DigitChar(n)] else Decimal(n / 10) + [DigitChar(n % 10)]
  }

  /** Distinct numbers print differently, so names built from them are distinct. */
  lemma {:induction false} DecimalInjective(a: nat, b: nat)
    requires Decimal(a) == Decimal(b)
    ensures a == b
    decreases a
  {
    if a < 10 || b < 10 {
      assert |Decimal(a)| == |Decimal(b)|;
      assert a < 10 && b < 10;
      assert Decimal(a)[0] == Decimal(b)[0];
    } else {
      var da, db := Decimal(a), Decimal(b);
      assert da[|da| - 1] == db[|db| - 1];
      assert a % 10 == b % 10;
      assert da[..|da| - 1] == Decimal(a / 10);
      assert db[..|db| - 1] == Decimal(b / 10);
      DecimalInjective(a / 10, b / 10);
    }
  }

  /** `c not in s`. */
  predicate NoChar(s: string, c: char)
  {
    forall i :: 0 <= i < |s| ==> s[i] != c
  }

  lemma NoCharNoOccurrence(s: string, c: char)
    requires NoChar(s, c)
    ensures forall k :: 0 <= k ==> !OccursAt(s, [c], k)
  {
    forall k | 0 <= k
      ensures !OccursAt(s, [c], k)
    {
      if k + 1 <= |s| {
        assert s[k..k + 1] == [s[k]];
      }
    }
  }

  /** Replacing a single character works piece by piece. */
  lemma {:induction false} ReplaceCharAppend(a: string, b: string, c: char, rep: string)
    ensures Replace(a + b, [c], rep) == Replace(a, [c], rep) + Replace(b, [c], rep)
    decreases |a|
  {
    if |a| > 0 {
      assert (a + b)[..1] == a[..1] == [a[0]];
      assert (a + b)[1..] == a[1..] + b;
      ReplaceCharAppend(a[1..], b, c, rep);
    } else {
      assert a + b == b;
    }
  }

  /** After replacing `c` by a text without `c`, no `c` is left; a one-character replacement keeps the length. */
  lemma {:induction false} ReplaceCharGone(s: string, c: char, rep: string)
    requires NoChar(rep, c)
    ensures NoChar(Replace(s, [c], rep), c)
    ensures |rep| == 1 ==> |Replace(s, [c], rep)| == |s|
    decreases |s|
  {
    if |s| > 0 {
      assert s[..1] == [s[0]];
      ReplaceCharGone(s[1..], c, rep);
    }
  }

  /** Joining keeps every ending of the last component. */
  lemma JoinKeepsEnding(a: string, b: string, ending: string)
    requires EndsWith(b, ending)
    ensures EndsWith(PathJoin(a, b), ending)
  {
    var p := PathJoin(a, b);
    assert p[|p| - |b|..] == b;
    assert p[|p| - |ending|..] == b[|b| - |ending|..];
  }

  /** `os.path.join(a, b)` on POSIX paths. */
  function PathJoin(a: string, b: string): string
  {
    if StartsWith(b, "/") then b
    else if a == "" || EndsWith(a, "/") then a + b
    else a + "/" + b
  }
}
