/** The parts of Go's strings, strconv and net packages that the program relies on, over sequences of characters. */
module Text {
  import opened Basics

  // ---------------------------------------------------------------- searching and cutting

  /** The first index of c in s, or |s|. */
  function Find(s: string, c: char): (r: nat)
    ensures r <= |s|
  {
    if s == "" then 0 else if s[0] == c then 0 else 1 + Find(s[1..], c)
  }

  lemma {:induction false} FindIsFirst(s: string, c: char)
    ensures Find(s, c) < |s| ==> s[Find(s, c)] == c
    ensures forall j :: 0 <= j < Find(s, c) ==> s[j] != c
    decreases |s|
  {
    if s != "" && s[0] != c {
      FindIsFirst(s[1..], c);
      forall j | 0 < j < Find(s, c) ensures s[j] != c { assert s[j] == s[1..][j - 1]; }
    }
  }

  /** The last index of c in s, or -1. */
  function FindLast(s: string, c: char): (r: int)
    ensures -1 <= r < |s|
  {
    if s == "" then -1 else if s[|s| - 1] == c then |s| - 1 else FindLast(s[..|s| - 1], c)
  }

  lemma {:induction false} FindLastIsLast(s: string, c: char)
    ensures FindLast(s, c) >= 0 ==> s[FindLast(s, c)] == c
    ensures forall j :: FindLast(s, c) < j < |s| ==> s[j] != c
    decreases |s|
  {
    if s != "" && s[|s| - 1] != c {
      FindLastIsLast(s[..|s| - 1], c);
      forall j | FindLast(s, c) < j < |s| - 1 ensures s[j] != c { assert s[j] == s[..|s| - 1][j]; }
    }
  }

  datatype Cuts = Cuts(before: string, after: string, found: bool)

  /** strings.Cut at a single character. */
  function Cut(s: string, c: char): Cuts {
    var i := Find(s, c);
    if i == |s| then Cuts(s, "", false) else Cuts(s[..i], s[i + 1..], true)
  }

  predicate HasPrefix(s: string, prefix: string) {
    prefix <= s
  }

  function TrimPrefix(s: string, prefix: string): string {
    if prefix <= s then s[|prefix|..] else s
  }

  predicate HasSuffix(s: string, suffix: string) {
    |suffix| <= |s| && s[|s| - |suffix|..] == suffix
  }

  function TrimSuffix(s: string, suffix: string): string {
    if HasSuffix(s, suffix) then s[..|s| - |suffix|] else s
  }

  lemma FindAppend(a: string, c: char, b: string)
    requires c !in a
    ensures Find(a + [c] + b, c) == |a|
    ensures Cut(a + [c] + b, c) == Cuts(a, b, true)
  {
    var s := a + [c] + b;
    var i := Find(s, c);
    FindIsFirst(s, c);
    assert s[|a|] == c;
    assert s[..|a|] == a && s[|a| + 1..] == b;
  }

  lemma FindLastAppend(a: string, c: char, b: string)
    requires c !in b
    ensures FindLast(a + [c] + b, c) == |a|
  {
    var s := a + [c] + b;
    var i := FindLast(s, c);
    FindLastIsLast(s, c);
    assert s[|a|] == c;
  }

  lemma FindLastAbsent(s: string, c: char)
    requires c !in s
    ensures FindLast(s, c) == -1
  {
    FindLastIsLast(s, c);
  }

  // ---------------------------------------------------------------- lines

  /** strings.Split at a single character. */
  function Split(s: string, sep: char): (r: seq<string>)
    ensures |r| >= 1
  {
    if s == "" then [""]
    else
      var r := Split(s[1..], sep);
      if s[0] == sep then [""] + r else [[s[0]] + r[0]] + r[1..]
  }

  lemma {:induction false} SplitAppend(a: string, sep: char, b: string)
    requires sep !in a
    ensures Split(a + [sep] + b, sep) == [a] + Split(b, sep)
    decreases |a|
  {
    if a == "" {
      assert a + [sep] + b == [sep] + b && ([sep] + b)[1..] == b;
    } else {
      SplitAppend(a[1..], sep, b);
      assert (a + [sep] + b)[1..] == a[1..] + [sep] + b;
      assert [a[0]] + a[1..] == a;
    }
  }

  lemma {:induction false} SplitWhole(a: string, sep: char)
    requires sep !in a
    ensures Split(a, sep) == [a]
    decreases |a|
  {
    if a != "" {
      SplitWhole(a[1..], sep);
      assert [a[0]] + a[1..] == a;
    }
  }

  // ---------------------------------------------------------------- case and space

  /** unicode.IsSpace. */
  predicate IsSpace(c: char) {
    || '\t' <= c <= '\r' || c == ' ' || c == '\U{0085}' || c == '\U{00A0}'
    || c == '\U{1680}' || '\U{2000}' <= c <= '\U{200A}'
    || c == '\U{2028}' || c == '\U{2029}' || c == '\U{202F}' || c == '\U{205F}' || c == '\U{3000}'
  }

  function TrimLeft(s: string): (r: string)
    ensures |r| <= |s|
  {
    if s != "" && IsSpace(s[0]) then TrimLeft(s[1..]) else s
  }

  function TrimRight(s: string): (r: string)
    ensures |r| <= |s|
  {
    if s != "" && IsSpace(s[|s| - 1]) then TrimRight(s[..|s| - 1]) else s
  }

  lemma {:induction false} TrimLeftIs(s: string)
    ensures var r := TrimLeft(s);
      s[|s| - |r|..] == r && (r != "" ==> !IsSpace(r[0])) && forall i :: 0 <= i < |s| - |r| ==> IsSpace(s[i])
    decreases |s|
  {
    if s != "" && IsSpace(s[0]) { TrimLeftIs(s[1..]); }
  }

  lemma {:induction false} TrimRightIs(s: string)
    ensures var r := TrimRight(s);
      r <= s && (r != "" ==> !IsSpace(r[|r| - 1])) && forall i :: |r| <= i < |s| ==> IsSpace(s[i])
    decreases |s|
  {
    if s != "" && IsSpace(s[|s| - 1]) { TrimRightIs(s[..|s| - 1]); }
  }

  /** strings.TrimSpace. */
  function TrimSpace(s: string): string {
    TrimRight(TrimLeft(s))
  }

  predicate AllSpace(s: string) {
    forall i :: 0 <= i < |s| ==> IsSpace(s[i])
  }

  /** Neither end is white space. */
  predicate Trimmed(s: string) {
    s == "" || (!IsSpace(s[0]) && !IsSpace(s[|s| - 1]))
  }

  lemma TrimsTo(left: string, s: string, right: string)
    requires AllSpace(left) && AllSpace(right) && s != "" && Trimmed(s)
    ensures TrimSpace(left + s + right) == s
  {
    var t := left + s + right;
    var l := TrimLeft(t);
    TrimLeftIs(t);
    TrimRightIs(l);
    assert t[|left|] == s[0];
    assert l == s + right;
    var r := TrimRight(l);
    assert l[|s| - 1] == s[|s| - 1];
    assert r == s;
  }

  lemma TrimmedStays(s: string)
    requires Trimmed(s)
    ensures TrimSpace(s) == s
  {
    if s != "" {
      TrimsTo("", s, "");
      assert "" + s + "" == s;
    }
  }

  /** Lower case of a character; outside ASCII only the two whose lower case is ASCII matter here. */
  function Lower(c: char): char {
    if 'A' <= c <= 'Z' then c + (32 as char)
    else if c == '\U{0130}' then 'i'
    else if c == '\U{212A}' then 'k'
    else c
  }

  function ToLower(s: string): (r: string)
    ensures |r| == |s| && forall i :: 0 <= i < |s| ==> r[i] == Lower(s[i])
  {
    seq(|s|, i requires 0 <= i < |s| => Lower(s[i]))
  }

  /** The simple case folding of strings.EqualFold against an ASCII word. */
  function FoldCase(c: char): char {
    if 'A' <= c <= 'Z' then c + (32 as char)
    else if c == '\U{017F}' then 's'
    else if c == '\U{212A}' then 'k'
    else c
  }

  predicate EqualFold(s: string, t: string) {
    |s| == |t| && forall i :: 0 <= i < |s| ==> FoldCase(s[i]) == FoldCase(t[i])
  }

  // ---------------------------------------------------------------- numbers

  predicate IsDigit(c: char) {
    '0' <= c <= '9'
  }

  function DigitOf(n: nat): (c: char)
    requires n < 10
    ensures IsDigit(c)
  {
    '0' + (n as char)
  }

  /** strconv.Itoa for natural numbers. */
  function Itoa(n: nat): (r: string)
    ensures r != "" && forall i :: 0 <= i < |r| ==> IsDigit(r[i])
  {
    if n < 10 then [DigitOf(n)] else Itoa(n / 10) + [DigitOf(n % 10)]
  }

  function Digits(s: string): Option<nat> {
    if s == "" then None
    else
      var c := s[|s| - 1];
      if !IsDigit(c) then None
      else if |s| == 1 then Some(c as nat - '0' as nat)
      else match Digits(s[..|s| - 1])
        case None => None
        case Some(n) => Some(n * 10 + (c as nat - '0' as nat))
  }

  /** strconv.Atoi, without the overflow error: every caller bounds the result far below it. */
  function Atoi(s: string): Option<int> {
    if s != "" && (s[0] == '-' || s[0] == '+') then
      match Digits(s[1..])
      case None => None
      case Some(n) => Some(if s[0] == '-' then -(n as int) else n)
    else match Digits(s)
      case None => None
      case Some(n) => Some(n)
  }

  lemma {:induction false} DigitsOfItoa(n: nat)
    ensures Digits(Itoa(n)) == Some(n)
  {
    if n >= 10 {
      DigitsOfItoa(n / 10);
      assert Itoa(n)[..|Itoa(n)| - 1] == Itoa(n / 10);
      assert |Itoa(n / 10)| > 0;
    }
  }

  lemma AtoiOfItoa(n: nat)
    ensures Atoi(Itoa(n)) == Some(n)
  {
    DigitsOfItoa(n);
    assert IsDigit(Itoa(n)[0]);
  }

  // ---------------------------------------------------------------- host and port

  datatype HostPort = HostPort(host: string, port: string)

  /** net.SplitHostPort. */
  function SplitHostPort(s: string): Option<HostPort> {
    var i := FindLast(s, ':');
    if i < 0 then None
    else if s[0] == '[' then
      var end := Find(s, ']');
      if end + 1 != i || '[' in s[1..] || ']' in s[i..] then None
      else Some(HostPort(s[1..end], s[i + 1..]))
    else if ':' in s[..i] || '[' in s || ']' in s then None
    else Some(HostPort(s[..i], s[i + 1..]))
  }

  /** net.JoinHostPort. */
  function JoinHostPort(host: string, port: string): string {
    if ':' in host then "[" + host + "]" + ":" + port else host + ":" + port
  }

  predicate NoBrackets(s: string) {
    '[' !in s && ']' !in s
  }

  lemma SplitBare(host: string, port: string)
    requires NoBrackets(host) && NoBrackets(port) && ':' !in port && ':' !in host
    ensures SplitHostPort(host + ":" + port) == Some(HostPort(host, port))
  {
    var s := host + [':'] + port;
    FindLastAppend(host, ':', port);
    assert s[..|host|] == host && s[|host| + 1..] == port;
    assert s[0] != '[' && '[' !in s && ']' !in s;
  }

  /** The layout of a bracketed address, character by character. */
  lemma BracketLayout(host: string, port: string) returns (s: string)
    ensures s == "[" + host + "]" + ":" + port
    ensures |s| == |host| + 3 + |port|
    ensures s[0] == '[' && s[|host| + 1] == ']' && s[|host| + 2] == ':'
    ensures s[1..|host| + 1] == host && s[|host| + 3..] == port
    ensures s[..|host| + 1] == "[" + host
    ensures s == s[..|host| + 1] + [']'] + s[|host| + 2..]
    ensures s == s[..|host| + 2] + [':'] + port
  {
    s := "[" + host + "]" + ":" + port;
  }

  lemma SplitBracketed(host: string, port: string)
    requires NoBrackets(host) && NoBrackets(port) && ':' !in port
    ensures SplitHostPort("[" + host + "]" + ":" + port) == Some(HostPort(host, port))
  {
    var s := BracketLayout(host, port);
    FindLastAppend(s[..|host| + 2], ':', port);
    assert ']' !in s[..|host| + 1];
    FindAppend(s[..|host| + 1], ']', s[|host| + 2..]);
    forall j | 1 <= j < |s| ensures s[j] != '[' {
      if j < |host| + 1 { assert s[j] == s[1..|host| + 1][j - 1]; }
      if j > |host| + 2 { assert s[j] == s[|host| + 3..][j - |host| - 3]; }
    }
    forall j | |host| + 2 <= j < |s| ensures s[j] != ']' {
      if j > |host| + 2 { assert s[j] == s[|host| + 3..][j - |host| - 3]; }
    }
  }

  lemma SplitOfJoin(host: string, port: string)
    requires NoBrackets(host) && NoBrackets(port) && ':' !in port
    ensures SplitHostPort(JoinHostPort(host, port)) == Some(HostPort(host, port))
  {
    if ':' in host { SplitBracketed(host, port); } else { SplitBare(host, port); }
  }
}
