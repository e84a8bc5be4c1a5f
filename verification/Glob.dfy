/** The wildcard matcher of the authorization policy (internal/engine/authz.go).

    `MatchPattern` is the greedy loop of the source: split the pattern at the stars, check
    both anchors, then look for each literal part at its leftmost place.  `Matches` is the
    usual meaning of such a pattern, read character by character.  The method's contract
    says that the two agree on every value and every pattern. */
module Glob {

  const STAR: char := '*'

  /** unicode.IsSpace, the test behind strings.TrimSpace. */
  predicate IsSpace(c: char) {
    c in {'\t', '\n', '\U{0B}', '\U{0C}', '\r', ' ', '\U{85}', '\U{A0}', '\U{1680}',
          '\U{2028}', '\U{2029}', '\U{202F}', '\U{205F}', '\U{3000}'}
    || '\U{2000}' <= c <= '\U{200A}'
  }

  function TrimLeft(s: string): string {
    if s != "" && IsSpace(s[0]) then TrimLeft(s[1..]) else s
  }

  function TrimRight(s: string): string {
    if s != "" && IsSpace(s[|s| - 1]) then TrimRight(s[..|s| - 1]) else s
  }

  function TrimSpace(s: string): string {
    TrimRight(TrimLeft(s))
  }

  lemma {:induction false} TrimLeftTwice(s: string)
    ensures TrimLeft(s) == "" || !IsSpace(TrimLeft(s)[0])
    ensures |TrimLeft(s)| <= |s|
  {
    if s != "" && IsSpace(s[0]) {
      TrimLeftTwice(s[1..]);
    }
  }

  lemma {:induction false} TrimRightKeeps(s: string)
    ensures TrimRight(s) == "" || (!IsSpace(TrimRight(s)[|TrimRight(s)| - 1]) && TrimRight(s)[0] == s[0])
    ensures |TrimRight(s)| <= |s|
  {
    if s != "" && IsSpace(s[|s| - 1]) {
      TrimRightKeeps(s[..|s| - 1]);
    }
  }

  /** A trimmed string stays as it is. */
  lemma TrimTwice(s: string)
    ensures TrimSpace(TrimSpace(s)) == TrimSpace(s)
  {
    TrimLeftTwice(s);
    TrimRightKeeps(TrimLeft(s));
  }

  ghost predicate AllSpace(s: string) {
    forall i :: 0 <= i < |s| ==> IsSpace(s[i])
  }

  /** What is left is the string without exactly the space before and after it. */
  lemma TrimmedExactly(s: string) returns (before: string, after: string)
    ensures s == before + TrimSpace(s) + after && AllSpace(before) && AllSpace(after)
    ensures TrimSpace(s) != "" ==> !IsSpace(TrimSpace(s)[0]) && !IsSpace(TrimSpace(s)[|TrimSpace(s)| - 1])
  {
    before := TrimmedLeft(s);
    after := TrimmedRight(TrimLeft(s));
    TrimLeftTwice(s);
    TrimRightKeeps(TrimLeft(s));
    assert s == before + (TrimSpace(s) + after);
  }

  lemma {:induction false} TrimmedLeft(s: string) returns (before: string)
    ensures s == before + TrimLeft(s) && AllSpace(before)
  {
    before := "";
    if s != "" && IsSpace(s[0]) {
      before := TrimmedLeft(s[1..]);
      before := [s[0]] + before;
    }
  }

  lemma {:induction false} TrimmedRight(s: string) returns (after: string)
    ensures s == TrimRight(s) + after && AllSpace(after)
  {
    after := "";
    if s != "" && IsSpace(s[|s| - 1]) {
      after := TrimmedRight(s[..|s| - 1]);
      after := after + [s[|s| - 1]];
    }
  }

  /** The meaning of a pattern: a star stands for any string, every other character for
      itself, and the whole value is consumed. */
  ghost predicate Matches(value: string, pattern: string)
    decreases |pattern|
  {
    if pattern == "" then value == ""
    else if pattern[0] == STAR then
      exists k :: 0 <= k <= |value| && Matches(value[k..], pattern[1..])
    else
      value != "" && value[0] == pattern[0] && Matches(value[1..], pattern[1..])
  }

  ghost predicate OccursAt(s: string, part: string, k: int) {
    0 <= k && k + |part| <= |s| && s[k..k + |part|] == part
  }

  predicate HasPrefix(s: string, part: string) {
    |part| <= |s| && s[..|part|] == part
  }

  predicate HasSuffix(s: string, part: string) {
    |part| <= |s| && s[|s| - |part|..] == part
  }

  lemma {:induction false} SliceOfDrop(s: string, a: nat, lo: nat, hi: nat)
    requires lo <= hi && a + hi <= |s|
    ensures s[a..][lo..hi] == s[a + lo..a + hi]
  {
    var x, y := s[a..][lo..hi], s[a + lo..a + hi];
    forall i | 0 <= i < hi - lo
      ensures x[i] == y[i]
    {
      assert x[i] == s[a..][lo + i];
    }
  }

  lemma {:induction false} OccursShift(s: string, part: string, j: int)
    requires s != "" && j >= 1
    ensures OccursAt(s, part, j) <==> OccursAt(s[1..], part, j - 1)
  {
    if j + |part| <= |s| {
      SliceOfDrop(s, 1, j - 1, j - 1 + |part|);
    }
  }

  lemma {:induction false} OccursShiftAll(s: string, part: string)
    requires s != "" && !HasPrefix(s, part)
    ensures forall j :: OccursAt(s, part, j) ==> j >= 1 && OccursAt(s[1..], part, j - 1)
  {
    forall j | OccursAt(s, part, j)
      ensures j >= 1 && OccursAt(s[1..], part, j - 1)
    {
      if j >= 1 {
        OccursShift(s, part, j);
      }
    }
  }

  /** strings.Index: the leftmost place at which `part` occurs, or -1. */
  function Index(s: string, part: string): (k: int)
    ensures k == -1 ==> forall j :: !OccursAt(s, part, j)
    ensures k != -1 ==> OccursAt(s, part, k) && forall j :: 0 <= j < k ==> !OccursAt(s, part, j)
  {
    if HasPrefix(s, part) then 0
    else if s == "" then -1
    else
      var k := Index(s[1..], part);
      OccursShiftAll(s, part);
      if k == -1 then -1
      else
        OccursShift(s, part, k + 1);
        k + 1
  }

  /** strings.Split(pattern, "*"). */
  function Split(pattern: string): (parts: seq<string>)
    ensures |parts| >= 1
    ensures forall i :: 0 <= i < |parts| ==> STAR !in parts[i]
    ensures |parts| == 1 <==> STAR !in pattern
  {
    if pattern == "" then [""]
    else
      var rest := Split(pattern[1..]);
      assert pattern == [pattern[0]] + pattern[1..];
      if pattern[0] == STAR then [""] + rest
      else [[pattern[0]] + rest[0]] + rest[1..]
  }

  /** The value after a star: the parts occur in this order, with arbitrary strings before
      each of them, and the last one ends the value. */
  ghost predicate Tail(value: string, parts: seq<string>)
    requires |parts| >= 1
    decreases |parts|
  {
    if |parts| == 1 then HasSuffix(value, parts[0])
    else exists k :: OccursAt(value, parts[0], k) && Tail(value[k + |parts[0]|..], parts[1..])
  }

  /** The value as the pattern's parts cut it: the first part is anchored at the start. */
  ghost predicate Cuts(value: string, parts: seq<string>)
    requires |parts| >= 1
  {
    if |parts| == 1 then value == parts[0]
    else HasPrefix(value, parts[0]) && Tail(value[|parts[0]|..], parts[1..])
  }

  /** Starting further left never hurts. */
  lemma {:induction false} TailMonotone(value: string, i: nat, j: nat, parts: seq<string>)
    requires i <= j <= |value| && |parts| >= 1
    requires Tail(value[j..], parts)
    ensures Tail(value[i..], parts)
  {
    if |parts| == 1 {
      var n := |value| - |parts[0]|;
      assert value[j..][|value[j..]| - |parts[0]|..] == value[n..];
      assert value[i..][|value[i..]| - |parts[0]|..] == value[n..];
    } else {
      var k :| OccursAt(value[j..], parts[0], k) && Tail(value[j..][k + |parts[0]|..], parts[1..]);
      var d := j - i;
      assert value[i..][k + d..k + d + |parts[0]|] == value[j..][k..k + |parts[0]|];
      assert value[i..][k + d + |parts[0]|..] == value[j..][k + |parts[0]|..];
      assert OccursAt(value[i..], parts[0], k + d);
    }
  }

  /** The leftmost occurrence of the next part is as good as any other. */
  lemma {:induction false} TailLeftmost(value: string, parts: seq<string>)
    requires |parts| >= 2
    ensures Tail(value, parts) <==>
            (var k := Index(value, parts[0]);
             k != -1 && Tail(value[k + |parts[0]|..], parts[1..]))
  {
    hide Index, HasSuffix, HasPrefix;
    var k := Index(value, parts[0]);
    if Tail(value, parts) {
      var j :| OccursAt(value, parts[0], j) && Tail(value[j + |parts[0]|..], parts[1..]);
      assert k <= j;
      TailMonotone(value, k + |parts[0]|, j + |parts[0]|, parts[1..]);
    }
  }

  /** A star in front of a pattern whose parts already cut the rest of the value. */
  lemma {:induction false} StarIsTail(value: string, parts: seq<string>)
    requires |parts| >= 1
    ensures Tail(value, parts) <==> exists k :: 0 <= k <= |value| && Cuts(value[k..], parts)
  {
    if |parts| == 1 {
      if Tail(value, parts) {
        var k := |value| - |parts[0]|;
        assert Cuts(value[k..], parts);
      }
      forall k | 0 <= k <= |value| && Cuts(value[k..], parts)
        ensures Tail(value, parts)
      {
        assert |value[k..]| == |parts[0]|;
      }
    } else {
      if Tail(value, parts) {
        var k :| OccursAt(value, parts[0], k) && Tail(value[k + |parts[0]|..], parts[1..]);
        assert value[k..][..|parts[0]|] == value[k..k + |parts[0]|];
        assert value[k..][|parts[0]|..] == value[k + |parts[0]|..];
        assert Cuts(value[k..], parts);
      }
      forall k | 0 <= k <= |value| && Cuts(value[k..], parts)
        ensures Tail(value, parts)
      {
        assert value[k..][..|parts[0]|] == value[k..k + |parts[0]|];
        assert value[k..][|parts[0]|..] == value[k + |parts[0]|..];
        assert OccursAt(value, parts[0], k);
      }
    }
  }

  /** The pattern means exactly that its parts cut the value. */
  lemma {:induction false} MatchesIsCuts(value: string, pattern: string)
    ensures Matches(value, pattern) <==> Cuts(value, Split(pattern))
    decreases |pattern|
  {
    if pattern == "" {
    } else {
      var rest := Split(pattern[1..]);
      var parts := Split(pattern);
      if pattern[0] == STAR {
        assert parts == [""] + rest && parts[1..] == rest;
        assert value[|""|..] == value;
        StarIsTail(value, rest);
        forall k | 0 <= k <= |value|
          ensures Matches(value[k..], pattern[1..]) <==> Cuts(value[k..], rest)
        {
          MatchesIsCuts(value[k..], pattern[1..]);
        }
      } else {
        assert parts[0] == [pattern[0]] + rest[0] && parts[1..] == rest[1..];
        if value != "" {
          MatchesIsCuts(value[1..], pattern[1..]);
          assert value == [value[0]] + value[1..];
          if |parts[0]| <= |value| {
            assert value[..|parts[0]|] == [value[0]] + value[1..][..|rest[0]|];
            assert value[|parts[0]|..] == value[1..][|rest[0]|..];
          }
        }
      }
    }
  }

  /** An empty part between two stars asks for nothing. */
  lemma {:induction false} TailSkipsEmpty(value: string, parts: seq<string>)
    requires |parts| >= 2 && parts[0] == ""
    ensures Tail(value, parts) <==> Tail(value, parts[1..])
  {
    TailLeftmost(value, parts);
    assert HasPrefix(value, parts[0]);
    assert OccursAt(value, "", 0);
    assert Index(value, parts[0]) == 0;
    assert value[0 + |parts[0]|..] == value;
  }

  /** With both anchors checked beforehand, finding the last part anywhere in what is left is
      the same as finding it at the end. */
  lemma {:induction false} LastPart(value: string, pos: nat, last: string)
    requires pos <= |value| && HasSuffix(value, last)
    ensures Index(value[pos..], last) != -1 <==> HasSuffix(value[pos..], last)
  {
    var k := Index(value[pos..], last);
    if k != -1 {
      assert value[pos..][|value[pos..]| - |last|..] == value[|value| - |last|..];
    }
    if HasSuffix(value[pos..], last) {
      var j := |value| - pos - |last|;
      var rest := value[pos..];
      assert rest[j..j + |last|] == rest[|rest| - |last|..];
      assert OccursAt(rest, last, j);
    }
  }

  /** What the loop keeps: whether the parts cut the value depends only on what is left. */
  ghost predicate Progress(v: string, parts: seq<string>, i: nat, pos: nat)
    requires |parts| >= 2
  {
    && i <= |parts| && pos <= |v|
    && (i == 0 ==> pos == 0)
    && (0 < i < |parts| ==> (Cuts(v, parts) <==> Tail(v[pos..], parts[i..])))
    && (i == |parts| ==> Cuts(v, parts))
  }

  ghost predicate Anchored(v: string, parts: seq<string>)
    requires |parts| >= 2
  {
    HasPrefix(v, parts[0]) && HasSuffix(v, parts[|parts| - 1])
  }

  lemma {:induction false} SkipEmptyPart(v: string, parts: seq<string>, i: nat, pos: nat)
    requires |parts| >= 2 && Anchored(v, parts) && i < |parts|
    requires Progress(v, parts, i, pos) && parts[i] == ""
    ensures Progress(v, parts, i + 1, pos)
  {
    if i == 0 {
      assert v[0..] == v;
    } else if i < |parts| - 1 {
      TailSkipsEmpty(v[pos..], parts[i..]);
      assert parts[i..][1..] == parts[i + 1..];
    }
  }

  lemma {:induction false} FindPart(v: string, parts: seq<string>, i: nat, pos: nat)
    requires |parts| >= 2 && Anchored(v, parts) && i < |parts|
    requires Progress(v, parts, i, pos)
    ensures var idx := Index(v[pos..], parts[i]);
            if idx == -1 then !Cuts(v, parts)
            else (i == 0 ==> idx == 0) && Progress(v, parts, i + 1, pos + idx + |parts[i]|)
  {
    var idx := Index(v[pos..], parts[i]);
    if idx != -1 {
      assert v[pos..][idx + |parts[i]|..] == v[pos + idx + |parts[i]|..];
    }
    if i == 0 {
      assert v[pos..] == v;
      assert OccursAt(v, parts[0], 0);
    } else if i < |parts| - 1 {
      TailLeftmost(v[pos..], parts[i..]);
      assert parts[i..][1..] == parts[i + 1..];
    } else {
      LastPart(v, pos, parts[i]);
    }
  }

  /** The greedy matcher of the source agrees with the meaning of patterns, for every value
      and every pattern; an all-blank pattern matches nothing. */
  method MatchPattern(value: string, pattern: string) returns (ok: bool)
    ensures ok <==> TrimSpace(pattern) != "" && Matches(TrimSpace(value), TrimSpace(pattern))
  {
    var v := TrimSpace(value);
    var p := TrimSpace(pattern);
    if p == "" {
      return false;
    }
    MatchesIsCuts(v, p);
    if p == [STAR] {
      assert Matches(v[|v|..], p[1..]);
      return true;
    }
    if STAR !in p {
      SplitNoStar(p);
      return v == p;
    }
    ok := MatchParts(v, Split(p));
  }

  /** The part of the source that works on the split pattern. */
  method MatchParts(v: string, parts: seq<string>) returns (ok: bool)
    requires |parts| >= 2
    ensures ok <==> Cuts(v, parts)
  {
    if parts[0] != "" && !HasPrefix(v, parts[0]) {
      return false;
    }
    var last := parts[|parts| - 1];
    if last != "" && !HasSuffix(v, last) {
      LastIsNeeded(v, parts);
      return false;
    }
    var pos: nat := 0;
    var i: nat := 0;
    while i < |parts|
      invariant Progress(v, parts, i, pos)
    {
      var part := parts[i];
      if part == "" {
        SkipEmptyPart(v, parts, i, pos);
        i := i + 1;
        continue;
      }
      FindPart(v, parts, i, pos);
      var idx := Index(v[pos..], part);
      if idx < 0 {
        return false;
      }
      if i == 0 && idx != 0 {
        assert false;
        return false;
      }
      pos := pos + idx + |part|;
      i := i + 1;
    }
    return true;
  }

  lemma {:induction false} SplitNoStar(p: string)
    requires STAR !in p
    ensures Split(p) == [p]
  {
    if p != "" {
      SplitNoStar(p[1..]);
      assert p == [p[0]] + p[1..];
    }
  }

  /** A cut ends with the last part. */
  lemma {:induction false} LastIsNeeded(value: string, parts: seq<string>)
    requires |parts| >= 2
    ensures Cuts(value, parts) ==> HasSuffix(value, parts[|parts| - 1])
  {
    if Cuts(value, parts) {
      TailEnds(value, |parts[0]|, parts[1..]);
    }
  }

  lemma {:induction false} TailEnds(value: string, pos: nat, parts: seq<string>)
    requires pos <= |value| && |parts| >= 1
    ensures Tail(value[pos..], parts) ==> HasSuffix(value, parts[|parts| - 1])
    decreases |parts|
  {
    if Tail(value[pos..], parts) {
      if |parts| == 1 {
        assert value[pos..][|value[pos..]| - |parts[0]|..] == value[|value| - |parts[0]|..];
      } else {
        var k :| OccursAt(value[pos..], parts[0], k) && Tail(value[pos..][k + |parts[0]|..], parts[1..]);
        assert value[pos..][k + |parts[0]|..] == value[pos + k + |parts[0]|..];
        TailEnds(value, pos + k + |parts[0]|, parts[1..]);
      }
    }
  }
}
