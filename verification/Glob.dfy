/**
 * wildcardMatch: the iterative matcher with one backtrack point, against the
 * declarative meaning of `?` and `*`.  The loop compares characters before it
 * looks for `*`, so a `*` in the subject can be consumed literally; the
 * results say exactly which subjects that affects.
 */
module Glob {

  /** What a pattern means: `?` is any one character, `*` any run of characters. */
  ghost predicate Matches(pattern: string, s: string)
    decreases |pattern|
  {
    if pattern == "" then s == ""
    else if pattern[0] == '*' then exists k :: 0 <= k <= |s| && Matches(pattern[1..], s[k..])
    else s != "" && (pattern[0] == '?' || pattern[0] == s[0]) && Matches(pattern[1..], s[1..])
  }

  predicate AllStars(pattern: string) {
    forall i :: 0 <= i < |pattern| ==> pattern[i] == '*'
  }

  /** pattern[p] matches the subject character literally or as `?`. */
  predicate Eats(pattern: string, p: nat, c: char) {
    p < |pattern| && (pattern[p] == '?' || pattern[p] == c)
  }

  predicate StarAt(pattern: string, p: nat) {
    p < |pattern| && pattern[p] == '*'
  }

  ghost predicate Bounds(pattern: string, s: string, p: nat, i: nat, star: int, mark: nat) {
    p <= |pattern| && mark <= i <= |s| && -1 <= star < |pattern|
  }

  /** The rest of the loop from a given state, followed by the check for trailing stars. */
  ghost predicate Loop(pattern: string, s: string, p: nat, i: nat, star: int, mark: nat)
    requires Bounds(pattern, s, p, i, star, mark)
    decreases |s| - mark, |s| - i, |pattern| - p
  {
    if i == |s| then AllStars(pattern[p..])
    else if Eats(pattern, p, s[i]) then Loop(pattern, s, p + 1, i + 1, star, mark)
    else if StarAt(pattern, p) then Loop(pattern, s, p + 1, i, p, i)
    else star >= 0 && Loop(pattern, s, star + 1, mark + 1, star, mark + 1)
  }

  /** wildcardMatch. */
  ghost predicate LoopMatches(pattern: string, s: string) {
    Loop(pattern, s, 0, 0, -1, 0)
  }

  method WildcardMatch(pattern: string, s: string) returns (r: bool)
    ensures r <==> LoopMatches(pattern, s)
    ensures r ==> Matches(pattern, s)
    ensures '*' !in s ==> (r <==> Matches(pattern, s))
  {
    Soundness(pattern, s);
    if '*' !in s { Completeness(pattern, s); }
    var p: nat, i: nat := 0, 0;
    var star: int, mark: nat := -1, 0;
    while i < |s|
      invariant Bounds(pattern, s, p, i, star, mark)
      invariant LoopMatches(pattern, s) <==> Loop(pattern, s, p, i, star, mark)
      decreases |s| - mark, |s| - i, |pattern| - p
    {
      if p < |pattern| && (pattern[p] == '?' || pattern[p] == s[i]) {
        p, i := p + 1, i + 1;
      } else if p < |pattern| && pattern[p] == '*' {
        star, mark := p, i;
        p := p + 1;
      } else if star >= 0 {
        p := star + 1;
        mark := mark + 1;
        i := mark;
      } else {
        return false;
      }
    }
    ghost var rest := pattern[p..];
    while p < |pattern| && pattern[p] == '*'
      invariant p <= |pattern|
      invariant AllStars(rest) <==> AllStars(pattern[p..])
    {
      assert pattern[p..][1..] == pattern[p + 1..];
      assert forall j :: 0 < j < |pattern[p..]| ==> pattern[p..][j] == pattern[p + 1..][j - 1];
      p := p + 1;
    }
    assert p < |pattern| ==> pattern[p..][0] != '*';
    return p == |pattern|;
  }

  // ---------------------------------------------------------------- soundness

  /** From a state of the loop: the rest matches, or a later choice for the last star does. */
  ghost predicate StillMatches(pattern: string, s: string, p: nat, i: nat, star: int, mark: nat)
    requires Bounds(pattern, s, p, i, star, mark)
  {
    || Matches(pattern[p..], s[i..])
    || (star >= 0 && exists m :: mark < m <= |s| && Matches(pattern[star + 1..], s[m..]))
  }

  lemma {:induction false} StarsMatchNothing(pattern: string)
    ensures Matches(pattern, "") <==> AllStars(pattern)
    decreases |pattern|
  {
    if pattern != "" {
      StarsMatchNothing(pattern[1..]);
      if pattern[0] == '*' {
        assert ""[0..] == "";
        assert Matches(pattern, "") <==> Matches(pattern[1..], "");
        assert AllStars(pattern[1..]) ==> forall i :: 0 < i < |pattern| ==> pattern[i] == pattern[1..][i - 1];
      }
    }
  }

  /** A star followed by a match is a match. */
  lemma StarAbsorbs(pattern: string, s: string, p: nat, i: nat, m: nat)
    requires StarAt(pattern, p) && i <= m <= |s| && Matches(pattern[p + 1..], s[m..])
    ensures Matches(pattern[p..], s[i..])
  {
    assert pattern[p..][1..] == pattern[p + 1..];
    assert s[i..][m - i..] == s[m..];
  }

  /** A character matched literally, be it a star against a star, and a match of the rest. */
  lemma MatchEaten(pattern: string, s: string, p: nat, i: nat)
    requires i < |s| && Eats(pattern, p, s[i]) && Matches(pattern[p + 1..], s[i + 1..])
    ensures Matches(pattern[p..], s[i..])
  {
    if pattern[p] == '*' {
      StarAbsorbs(pattern, s, p, i, i + 1);
    } else {
      assert pattern[p..][1..] == pattern[p + 1..] && s[i..][1..] == s[i + 1..];
    }
  }

  lemma SoundAtEnd(pattern: string, s: string, p: nat, star: int, mark: nat)
    requires Bounds(pattern, s, p, |s|, star, mark) && AllStars(pattern[p..])
    ensures StillMatches(pattern, s, p, |s|, star, mark)
  {
    StarsMatchNothing(pattern[p..]);
    assert s[|s|..] == "";
  }

  lemma SoundAtLiteral(pattern: string, s: string, p: nat, i: nat, star: int, mark: nat)
    requires Bounds(pattern, s, p, i, star, mark) && i < |s| && Eats(pattern, p, s[i])
    requires StillMatches(pattern, s, p + 1, i + 1, star, mark)
    ensures StillMatches(pattern, s, p, i, star, mark)
  {
    if Matches(pattern[p + 1..], s[i + 1..]) { MatchEaten(pattern, s, p, i); }
  }

  lemma SoundAtStar(pattern: string, s: string, p: nat, i: nat, star: int, mark: nat)
    requires Bounds(pattern, s, p, i, star, mark) && StarAt(pattern, p)
    requires StillMatches(pattern, s, p + 1, i, p, i)
    ensures StillMatches(pattern, s, p, i, star, mark)
  {
    var m :| i <= m <= |s| && Matches(pattern[p + 1..], s[m..]);
    StarAbsorbs(pattern, s, p, i, m);
  }

  lemma {:induction false} LoopIsSound(pattern: string, s: string, p: nat, i: nat, star: int, mark: nat)
    requires Bounds(pattern, s, p, i, star, mark) && Loop(pattern, s, p, i, star, mark)
    ensures StillMatches(pattern, s, p, i, star, mark)
    decreases |s| - mark, |s| - i, |pattern| - p
  {
    if i == |s| {
      SoundAtEnd(pattern, s, p, star, mark);
    } else if Eats(pattern, p, s[i]) {
      LoopIsSound(pattern, s, p + 1, i + 1, star, mark);
      SoundAtLiteral(pattern, s, p, i, star, mark);
    } else if StarAt(pattern, p) {
      LoopIsSound(pattern, s, p + 1, i, p, i);
      SoundAtStar(pattern, s, p, i, star, mark);
    } else {
      LoopIsSound(pattern, s, star + 1, mark + 1, star, mark + 1);
    }
  }

  /** Whatever the loop accepts is a match. */
  lemma Soundness(pattern: string, s: string)
    ensures LoopMatches(pattern, s) ==> Matches(pattern, s)
  {
    if LoopMatches(pattern, s) {
      LoopIsSound(pattern, s, 0, 0, -1, 0);
      assert pattern[0..] == pattern && s[0..] == s;
    }
  }

  // ---------------------------------------------------------------- completeness

  /** Since the last star, the loop has matched a star-free stretch against as many characters. */
  ghost predicate Aligned(pattern: string, p: nat, i: nat, star: int, mark: nat) {
    star >= 0 ==>
      star < p <= |pattern| && p - star - 1 == i - mark && '*' !in pattern[star + 1..p]
  }

  /** A star-free stretch of the pattern uses up exactly its own length. */
  lemma {:induction false} StretchConsumes(pattern: string, s: string, a: nat, b: nat, m: nat)
    requires a <= b <= |pattern| && m <= |s| && '*' !in pattern[a..b]
    requires Matches(pattern[a..], s[m..])
    ensures m + (b - a) <= |s| && Matches(pattern[b..], s[m + (b - a)..])
    decreases b - a
  {
    if a < b {
      assert pattern[a..b][0] == pattern[a..][0] == pattern[a];
      assert pattern[a..][1..] == pattern[a + 1..] && s[m..][1..] == s[m + 1..];
      assert pattern[a..b][1..] == pattern[a + 1..b];
      StretchConsumes(pattern, s, a + 1, b, m + 1);
    }
  }

  /** When the next star is reached, a later choice for the previous star is also one for the new star. */
  lemma NewStarTakesOver(pattern: string, s: string, p: nat, i: nat, star: int, mark: nat, m: nat)
    requires Bounds(pattern, s, p, i, star, mark) && Aligned(pattern, p, i, star, mark) && StarAt(pattern, p)
    requires star >= 0 && mark < m <= |s| && Matches(pattern[star + 1..], s[m..])
    ensures exists k :: i <= k <= |s| && Matches(pattern[p + 1..], s[k..])
  {
    StretchConsumes(pattern, s, star + 1, p, m);
    var q := m + (p - star - 1);
    assert pattern[p..][1..] == pattern[p + 1..];
    var k :| 0 <= k <= |s[q..]| && Matches(pattern[p + 1..], s[q..][k..]);
    assert s[q..][k..] == s[q + k..];
  }

  lemma EatenMatch(pattern: string, s: string, p: nat, i: nat)
    requires i < |s| && Eats(pattern, p, s[i]) && pattern[p] != '*' && Matches(pattern[p..], s[i..])
    ensures Matches(pattern[p + 1..], s[i + 1..])
  {
    assert pattern[p..][1..] == pattern[p + 1..] && s[i..][1..] == s[i + 1..];
  }

  lemma AlignedOneOn(pattern: string, p: nat, i: nat, star: int, mark: nat)
    requires p < |pattern| && pattern[p] != '*' && mark <= i && Aligned(pattern, p, i, star, mark)
    ensures Aligned(pattern, p + 1, i + 1, star, mark)
  {
    assert star >= 0 ==> pattern[star + 1..p + 1] == pattern[star + 1..p] + [pattern[p]];
  }

  lemma StillMatchesOneOn(pattern: string, s: string, p: nat, i: nat, star: int, mark: nat)
    requires Bounds(pattern, s, p, i, star, mark) && i < |s| && Eats(pattern, p, s[i]) && pattern[p] != '*'
    requires StillMatches(pattern, s, p, i, star, mark)
    ensures StillMatches(pattern, s, p + 1, i + 1, star, mark)
  {
    if Matches(pattern[p..], s[i..]) { EatenMatch(pattern, s, p, i); }
  }

  lemma AtLiteral(pattern: string, s: string, p: nat, i: nat, star: int, mark: nat)
    requires '*' !in s && Bounds(pattern, s, p, i, star, mark) && i < |s| && Eats(pattern, p, s[i])
    requires Aligned(pattern, p, i, star, mark) && StillMatches(pattern, s, p, i, star, mark)
    ensures Loop(pattern, s, p + 1, i + 1, star, mark)
    decreases |s| - mark, |s| - i, |pattern| - p, 0
  {
    assert pattern[p] != '*' by { assert s[i] in s; }
    AlignedOneOn(pattern, p, i, star, mark);
    StillMatchesOneOn(pattern, s, p, i, star, mark);
    LoopIsComplete(pattern, s, p + 1, i + 1, star, mark);
  }

  /** Neither a character nor a star fits: only a later choice for the last star can match. */
  lemma AtMismatch(pattern: string, s: string, p: nat, i: nat, star: int, mark: nat)
    requires '*' !in s && Bounds(pattern, s, p, i, star, mark) && i < |s|
    requires !Eats(pattern, p, s[i]) && !StarAt(pattern, p) && StillMatches(pattern, s, p, i, star, mark)
    ensures star >= 0 && mark < |s| && Loop(pattern, s, star + 1, mark + 1, star, mark + 1)
    decreases |s| - mark, |s| - i, |pattern| - p, 0
  {
    MismatchIsNoMatch(pattern, s, p, i);
    assert pattern[star + 1..star + 1] == [];
    LaterChoice(pattern[star + 1..], s, mark);
    LoopIsComplete(pattern, s, star + 1, mark + 1, star, mark + 1);
  }

  lemma LaterChoice(rest: string, s: string, mark: nat)
    requires exists m :: mark < m <= |s| && Matches(rest, s[m..])
    ensures mark < |s| && (Matches(rest, s[mark + 1..]) || exists m :: mark + 1 < m <= |s| && Matches(rest, s[m..]))
  {
    var m :| mark < m <= |s| && Matches(rest, s[m..]);
    assert m == mark + 1 || mark + 1 < m;
  }

  lemma MismatchIsNoMatch(pattern: string, s: string, p: nat, i: nat)
    requires p <= |pattern| && i < |s| && !Eats(pattern, p, s[i]) && !StarAt(pattern, p)
    ensures !Matches(pattern[p..], s[i..])
  {
    if p < |pattern| { assert pattern[p..][0] == pattern[p] && s[i..][0] == s[i]; }
  }

  lemma {:induction false} LoopIsComplete(pattern: string, s: string, p: nat, i: nat, star: int, mark: nat)
    requires '*' !in s
    requires Bounds(pattern, s, p, i, star, mark) && Aligned(pattern, p, i, star, mark)
    requires StillMatches(pattern, s, p, i, star, mark)
    ensures Loop(pattern, s, p, i, star, mark)
    decreases |s| - mark, |s| - i, |pattern| - p, 1
  {
    if i == |s| {
      EndOfSubject(pattern, s, p, star, mark);
    } else if Eats(pattern, p, s[i]) {
      AtLiteral(pattern, s, p, i, star, mark);
    } else if StarAt(pattern, p) {
      AtStar(pattern, s, p, i, star, mark);
    } else {
      AtMismatch(pattern, s, p, i, star, mark);
    }
  }

  lemma EndOfSubject(pattern: string, s: string, p: nat, star: int, mark: nat)
    requires Bounds(pattern, s, p, |s|, star, mark) && Aligned(pattern, p, |s|, star, mark)
    requires StillMatches(pattern, s, p, |s|, star, mark)
    ensures AllStars(pattern[p..])
  {
    StarsMatchNothing(pattern[p..]);
    assert s[|s|..] == "";
    if !Matches(pattern[p..], "") {
      var m :| mark < m <= |s| && Matches(pattern[star + 1..], s[m..]);
      StretchConsumes(pattern, s, star + 1, p, m);
    }
  }

  lemma AtStar(pattern: string, s: string, p: nat, i: nat, star: int, mark: nat)
    requires '*' !in s && Bounds(pattern, s, p, i, star, mark) && StarAt(pattern, p)
    requires Aligned(pattern, p, i, star, mark) && StillMatches(pattern, s, p, i, star, mark)
    ensures Bounds(pattern, s, p + 1, i, p, i) && Loop(pattern, s, p + 1, i, p, i)
    decreases |s| - mark, |s| - i, |pattern| - p, 0
  {
    StarIsChosen(pattern, s, p, i, star, mark);
    LoopIsComplete(pattern, s, p + 1, i, p, i);
  }

  lemma StarIsChosen(pattern: string, s: string, p: nat, i: nat, star: int, mark: nat)
    requires Bounds(pattern, s, p, i, star, mark) && Aligned(pattern, p, i, star, mark) && StarAt(pattern, p)
    requires StillMatches(pattern, s, p, i, star, mark)
    ensures Bounds(pattern, s, p + 1, i, p, i) && StillMatches(pattern, s, p + 1, i, p, i)
  {
    if Matches(pattern[p..], s[i..]) {
      assert pattern[p..][1..] == pattern[p + 1..];
      var k :| 0 <= k <= |s[i..]| && Matches(pattern[p + 1..], s[i..][k..]);
      assert s[i..][k..] == s[i + k..];
    } else {
      var m :| mark < m <= |s| && Matches(pattern[star + 1..], s[m..]);
      NewStarTakesOver(pattern, s, p, i, star, mark, m);
    }
  }

  /** A match is accepted whenever the subject has no `*`. */
  lemma Completeness(pattern: string, s: string)
    requires '*' !in s
    ensures Matches(pattern, s) ==> LoopMatches(pattern, s)
  {
    if Matches(pattern, s) {
      assert pattern[0..] == pattern && s[0..] == s;
      LoopIsComplete(pattern, s, 0, 0, -1, 0);
    }
  }

  // ---------------------------------------------------------------- where it is not complete

  /** For a subject with a `*` at k: its own text up to k, a star, and a `?` for every remaining character. */
  function Missed(s: string, k: nat): (pattern: string)
    requires k < |s|
    ensures |pattern| == |s| + 1
  {
    s[..k] + "*" + seq(|s| - k, j => '?')
  }

  lemma {:induction false} MissedLoops(s: string, k: nat, i: nat)
    requires k < |s| && s[k] == '*' && i <= |s|
    ensures !Loop(Missed(s, k), s, i, i, -1, 0)
    decreases |s| - i
  {
    var pattern := Missed(s, k);
    if i == |s| {
      assert pattern[i..][0] == '?';
    } else {
      assert Eats(pattern, i, s[i]);
      MissedLoops(s, k, i + 1);
    }
  }

  lemma {:induction false} MissedMatches(s: string, k: nat, i: nat)
    requires k < |s| && '*' !in s[..k] && i <= |s|
    ensures Matches(Missed(s, k)[if i <= k then i else i + 1..], s[i..])
    decreases |s| - i
  {
    var pattern := Missed(s, k);
    if i == |s| {
      assert pattern[i + 1..] == "" && s[i..] == "";
    } else {
      MissedMatches(s, k, i + 1);
      assert s[i..][1..] == s[i + 1..];
      if i < k {
        assert pattern[i] == s[i] && s[i] in s[..k];
        assert pattern[i..][1..] == pattern[i + 1..];
      } else if i == k {
        assert pattern[k + 1..][0] == '?' && pattern[k + 1..][1..] == pattern[k + 2..];
        assert Matches(pattern[k + 1..], s[k..]);
        StarAbsorbs(pattern, s, k, k, k);
      } else {
        assert pattern[i + 1..][0] == '?' && pattern[i + 1..][1..] == pattern[i + 2..];
      }
    }
  }

  /** Every subject with a `*` has a pattern that matches it and is rejected. */
  lemma Incompleteness(s: string) returns (pattern: string)
    requires '*' in s
    ensures Matches(pattern, s) && !LoopMatches(pattern, s)
  {
    var k := FirstStar(s);
    pattern := Missed(s, k);
    MissedLoops(s, k, 0);
    MissedMatches(s, k, 0);
    assert pattern[0..] == pattern && s[0..] == s;
  }

  lemma FirstStar(s: string) returns (k: nat)
    requires '*' in s
    ensures k < |s| && s[k] == '*' && '*' !in s[..k]
    decreases |s|
  {
    if '*' in s[..|s| - 1] {
      k := FirstStar(s[..|s| - 1]);
      assert s[..|s| - 1][..k] == s[..k];
    } else {
      k := |s| - 1;
      assert s[k] == '*';
    }
  }

  /** The loop agrees with the meaning of every pattern exactly for the subjects without a `*`. */
  lemma ExactlyWithoutStars(s: string)
    ensures (forall pattern :: LoopMatches(pattern, s) <==> Matches(pattern, s)) <==> '*' !in s
  {
    if '*' in s {
      var pattern := Incompleteness(s);
    } else {
      forall pattern ensures LoopMatches(pattern, s) <==> Matches(pattern, s) {
        Soundness(pattern, s);
        Completeness(pattern, s);
      }
    }
  }

  // ---------------------------------------------------------------- patterns without wildcards

  predicate Literal(pattern: string) {
    '*' !in pattern && '?' !in pattern
  }

  lemma {:induction false} LiteralMeansEqual(pattern: string, s: string)
    requires Literal(pattern)
    ensures Matches(pattern, s) <==> pattern == s
    decreases |pattern|
  {
    if pattern != "" {
      assert pattern[0] in pattern && pattern == [pattern[0]] + pattern[1..];
      if s != "" {
        LiteralMeansEqual(pattern[1..], s[1..]);
        assert s == [s[0]] + s[1..];
      }
    }
  }

  /** A pattern without wildcards accepts itself and nothing else, whatever the subject. */
  lemma LiteralPattern(pattern: string, s: string)
    requires Literal(pattern)
    ensures LoopMatches(pattern, s) <==> pattern == s
  {
    LiteralMeansEqual(pattern, s);
    Soundness(pattern, s);
    if pattern == s { Completeness(pattern, s); }
  }
}
