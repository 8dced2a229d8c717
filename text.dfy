/** The Python string operations the extractor relies on: `lower`, `upper`,
    `in`, `index`, and `replace` with and without a count. */
module Text {
  import opened Wrappers

  /** `str.lower` restricted to ASCII letters. */
  function LowerChar(c: char): char {
    if 'A' <= c <= 'Z' then (c as int + 32) as char else c
  }

  /** `str.upper` restricted to ASCII letters. */
  function UpperChar(c: char): char {
    if 'a' <= c <= 'z' then (c as int - 32) as char else c
  }

  function Lower(s: string): string {
    seq(|s|, i requires 0 <= i < |s| => LowerChar(s[i]))
  }

  function Upper(s: string): string {
    seq(|s|, i requires 0 <= i < |s| => UpperChar(s[i]))
  }

  /** `sub` occurs in `s` starting at position `i`. */
  predicate OccursAt(s: string, sub: string, i: nat) {
    i + |sub| <= |s| && s[i..i + |sub|] == sub
  }

  /** Position `i` is the leftmost occurrence of `sub` in `s`. */
  predicate FirstOccurrence(s: string, sub: string, i: nat) {
    OccursAt(s, sub, i) && forall j: nat :: j < i ==> !OccursAt(s, sub, j)
  }

  /** The leftmost occurrence of `sub` at or after position `k`. */
  function FindFrom(s: string, sub: string, k: nat): (r: Option<nat>)
    ensures r.Some? ==> k <= r.value && OccursAt(s, sub, r.value)
    ensures r.Some? ==> forall j: nat :: k <= j < r.value ==> !OccursAt(s, sub, j)
    ensures r.None? ==> forall j: nat :: k <= j ==> !OccursAt(s, sub, j)
    decreases |s| - k
  {
    if |s| < k + |sub| then None
    else if OccursAt(s, sub, k) then Some(k)
    else FindFrom(s, sub, k + 1)
  }

  /** `s.find(sub)`, with `None` for -1; `s.index(sub)` raises on `None`. */
  function Find(s: string, sub: string): (r: Option<nat>)
    ensures r.Some? ==> FirstOccurrence(s, sub, r.value)
    ensures r.None? <==> forall j: nat :: !OccursAt(s, sub, j)
  {
    FindFrom(s, sub, 0)
  }

  /** `sub in s`. */
  predicate Contains(s: string, sub: string)
    ensures Contains(s, sub) <==> exists i: nat :: OccursAt(s, sub, i)
  {
    Find(s, sub).Some?
  }

  /** `s.replace("", rep)`: `rep` before every character and at the end. */
  function Interleave(s: string, rep: string): string
    decreases |s|
  {
    if s == [] then rep else rep + [s[0]] + Interleave(s[1..], rep)
  }

  /** `s.replace(pat, rep)`: scans left to right and replaces every
      non-overlapping occurrence of `pat`. */
  function ReplaceAll(s: string, pat: string, rep: string): string
    decreases |s|
  {
    if |pat| == 0 then Interleave(s, rep)
    else if OccursAt(s, pat, 0) then rep + ReplaceAll(s[|pat|..], pat, rep)
    else if |s| == 0 then s
    else [s[0]] + ReplaceAll(s[1..], pat, rep)
  }

  /** The leftmost occurrence is unique, and it is what `Find` returns. */
  lemma FindFirst(s: string, sub: string, i: nat)
    requires FirstOccurrence(s, sub, i)
    ensures Find(s, sub) == Some(i)
  {
  }

  /** No occurrence starts before `k` when the first two characters of
      `sub` are never adjacent there. */
  lemma NoOccurrenceBefore(s: string, sub: string, k: nat)
    requires |sub| >= 2 && k < |s|
    requires forall i :: 0 <= i < k ==> !(s[i] == sub[0] && s[i + 1] == sub[1])
    ensures forall j: nat :: j < k ==> !OccursAt(s, sub, j)
  {
    forall j: nat | j < k
      ensures !OccursAt(s, sub, j)
    {
      if j + |sub| <= |s| {
        assert s[j..j + |sub|][0] == s[j] && s[j..j + |sub|][1] == s[j + 1];
      }
    }
  }

  /** `s.replace(pat, rep, 1)`: replaces the leftmost occurrence only. */
  function ReplaceFirst(s: string, pat: string, rep: string): (r: string)
    ensures !Contains(s, pat) ==> r == s
    ensures forall i: nat :: FirstOccurrence(s, pat, i) ==> r == s[..i] + rep + s[i + |pat|..]
  {
    match Find(s, pat)
    case None => s
    case Some(i) => s[..i] + rep + s[i + |pat|..]
  }

  lemma OccursAtTail(s: string, pat: string, j: nat)
    requires |s| > 0
    ensures OccursAt(s[1..], pat, j) <==> OccursAt(s, pat, j + 1)
  {
    if j + |pat| <= |s[1..]| {
      assert s[1..][j..j + |pat|] == s[j + 1..j + 1 + |pat|];
    }
  }

  /** One character that does not start an occurrence is copied. */
  lemma ReplaceAllStep(s: string, pat: string, rep: string)
    requires |pat| > 0 && |s| > 0 && !OccursAt(s, pat, 0)
    ensures ReplaceAll(s, pat, rep) == [s[0]] + ReplaceAll(s[1..], pat, rep)
  {
  }

  /** A prefix without any occurrence of `pat` is copied unchanged. */
  lemma {:induction false} ReplaceAllSkip(s: string, pat: string, rep: string, k: nat)
    requires |pat| > 0 && k <= |s|
    requires forall j: nat :: j < k ==> !OccursAt(s, pat, j)
    ensures ReplaceAll(s, pat, rep) == s[..k] + ReplaceAll(s[k..], pat, rep)
    decreases k
  {
    if k > 0 {
      var t := s[1..];
      forall j: nat | j < k - 1
        ensures !OccursAt(t, pat, j)
      {
        OccursAtTail(s, pat, j);
      }
      ReplaceAllSkip(t, pat, rep, k - 1);
      ReplaceAllStep(s, pat, rep);
      calc {
        ReplaceAll(s, pat, rep);
        [s[0]] + ReplaceAll(t, pat, rep);
        [s[0]] + (t[..k - 1] + ReplaceAll(t[k - 1..], pat, rep));
        { assert t[k - 1..] == s[k..]; }
        [s[0]] + (t[..k - 1] + ReplaceAll(s[k..], pat, rep));
        { assert [s[0]] + t[..k - 1] == s[..k]; }
        s[..k] + ReplaceAll(s[k..], pat, rep);
      }
    }
  }

  /** Before the leftmost occurrence the text is copied; the occurrence
      is replaced; the scan carries on after it. */
  lemma ReplaceAllAtFirst(s: string, pat: string, rep: string, i: nat)
    requires |pat| > 0 && FirstOccurrence(s, pat, i)
    ensures ReplaceAll(s, pat, rep) == s[..i] + rep + ReplaceAll(s[i + |pat|..], pat, rep)
  {
    ReplaceAllSkip(s, pat, rep, i);
    ReplaceAllAt(s, pat, rep, i);
  }

  /** An occurrence at `i` is replaced and the scan moves past it. */
  lemma ReplaceAllAt(s: string, pat: string, rep: string, i: nat)
    requires |pat| > 0 && OccursAt(s, pat, i)
    ensures ReplaceAll(s[i..], pat, rep) == rep + ReplaceAll(s[i + |pat|..], pat, rep)
  {
    var u := s[i..];
    assert u[..|pat|] == s[i..i + |pat|];
    assert u[|pat|..] == s[i + |pat|..];
    assert OccursAt(u, pat, 0);
  }

  /** A text in which `pat` occurs nowhere is copied unchanged. */
  lemma {:induction false} ReplaceAllNowhere(s: string, pat: string, rep: string)
    requires |pat| > 0 && forall j: nat :: !OccursAt(s, pat, j)
    ensures ReplaceAll(s, pat, rep) == s
    decreases |s|
  {
    if |s| > 0 {
      assert !OccursAt(s, pat, 0);
      forall j: nat
        ensures !OccursAt(s[1..], pat, j)
      {
        OccursAtTail(s, pat, j);
      }
      ReplaceAllNowhere(s[1..], pat, rep);
      ReplaceAllStep(s, pat, rep);
      assert [s[0]] + s[1..] == s;
    }
  }

  /** Replacing every occurrence is: replace the leftmost one, then carry on
      after it; with no occurrence the text is unchanged. */
  lemma ReplaceAllByFind(s: string, pat: string, rep: string)
    requires |pat| > 0
    ensures Find(s, pat).None? ==> ReplaceAll(s, pat, rep) == s
    ensures Find(s, pat).Some? ==>
      var i := Find(s, pat).value;
      ReplaceAll(s, pat, rep) == s[..i] + rep + ReplaceAll(s[i + |pat|..], pat, rep)
  {
    match Find(s, pat)
    case None =>
      ReplaceAllNowhere(s, pat, rep);
    case Some(i) =>
      ReplaceAllAtFirst(s, pat, rep, i);
  }

  /** With a single occurrence, replacing all and replacing the first agree. */
  lemma ReplaceAllSingleOccurrence(s: string, pat: string, rep: string, i: nat)
    requires |pat| > 0 && FirstOccurrence(s, pat, i)
    requires !Contains(s[i + |pat|..], pat)
    ensures ReplaceAll(s, pat, rep) == ReplaceFirst(s, pat, rep) == s[..i] + rep + s[i + |pat|..]
  {
    var tail := s[i + |pat|..];
    assert Find(tail, pat).None?;
    ReplaceAllByFind(tail, pat, rep);
    ReplaceAllAtFirst(s, pat, rep, i);
  }

  /** Replacing the empty pattern by the empty string is the identity. */
  lemma {:induction false} InterleaveEmpty(s: string)
    ensures Interleave(s, "") == s
    decreases |s|
  {
    if s != [] {
      InterleaveEmpty(s[1..]);
    }
  }

  /** Replacing a pattern by itself is the identity. */
  lemma {:induction false} ReplaceAllSelf(s: string, pat: string)
    ensures ReplaceAll(s, pat, pat) == s
    decreases |s|
  {
    if |pat| == 0 {
      InterleaveEmpty(s);
    } else if OccursAt(s, pat, 0) {
      ReplaceAllSelf(s[|pat|..], pat);
      assert s == s[..|pat|] + s[|pat|..];
    } else if |s| > 0 {
      ReplaceAllSelf(s[1..], pat);
      assert s == [s[0]] + s[1..];
    }
  }

  /** A pattern that does not occur leaves the text unchanged. */
  lemma ReplaceAllAbsent(s: string, pat: string, rep: string)
    requires !Contains(s, pat) || (|pat| == 0 && |rep| == 0)
    ensures ReplaceAll(s, pat, rep) == s
  {
    if |pat| == 0 {
      assert OccursAt(s, pat, 0);
      InterleaveEmpty(s);
    } else {
      ReplaceAllByFind(s, pat, rep);
    }
  }

  /** Replacing the first occurrence of a non-empty pattern in an empty text
      gives the empty text. */
  lemma ReplaceFirstEmpty(pat: string, rep: string)
    requires |pat| > 0
    ensures ReplaceFirst("", pat, rep) == ""
  {
    assert !OccursAt("", pat, 0);
  }
}
