/**
 * The trust store of sshconn.go: host patterns, lookup, and the file that grows
 * by one line the first time a host is seen.
 */
module KnownHosts {
  import opened Basics
  import opened Text
  import opened Glob

  /** A public key, by its wire form (what Marshal returns). */
  datatype Key = Key(blob: string)

  datatype Entry = Entry(marker: string, hosts: seq<string>, key: Key)

  /**
   * The library functions used here: what is a public key at all, ssh.ParseKnownHosts on one line, the salted-hash
   * comparison, lower-casing, and ssh.MarshalAuthorizedKey without its final newline.
   */
  datatype Library = Library(
    isKey: Key -> bool,
    parse: string -> Option<Entry>,
    hashMatches: (string, string) -> bool,
    lower: string -> string,
    authorized: Key -> string)

  // ---------------------------------------------------------------- matchHost

  predicate Negated(p: string) {
    HasPrefix(p, "!")
  }

  /** One pattern without its `!` against a host name. */
  ghost predicate PatternMatches(lib: Library, p: string, name: string) {
    var q := TrimPrefix(p, "!");
    if HasPrefix(q, "|1|") then lib.hashMatches(q, name) else LoopMatches(lib.lower(q), name)
  }

  /** Some pattern of the given sign matches. */
  ghost predicate SomeMatch(lib: Library, patterns: seq<string>, name: string, negated: bool) {
    exists p :: p in patterns && Negated(p) == negated && PatternMatches(lib, p, name)
  }

  /** Some positive pattern matches and no negated one does. */
  ghost predicate HostMatches(lib: Library, patterns: seq<string>, name: string) {
    SomeMatch(lib, patterns, name, false) && !SomeMatch(lib, patterns, name, true)
  }

  lemma OneMorePattern(lib: Library, patterns: seq<string>, n: nat, name: string, negated: bool)
    requires n < |patterns|
    ensures SomeMatch(lib, patterns[..n + 1], name, negated) <==>
      SomeMatch(lib, patterns[..n], name, negated)
          || (Negated(patterns[n]) == negated && PatternMatches(lib, patterns[n], name))
    ensures SomeMatch(lib, patterns[..n + 1], name, negated) ==> SomeMatch(lib, patterns, name, negated)
  {
    assert patterns[..n + 1] == patterns[..n] + [patterns[n]];
    if SomeMatch(lib, patterns[..n], name, negated) {
      var p :| p in patterns[..n] && Negated(p) == negated && PatternMatches(lib, p, name);
      assert p in patterns[..n + 1];
    }
    if Negated(patterns[n]) == negated && PatternMatches(lib, patterns[n], name) {
      assert patterns[n] in patterns[..n + 1];
    }
  }

  method MatchHost(lib: Library, patterns: seq<string>, name: string) returns (r: bool)
    ensures r <==> HostMatches(lib, patterns, name)
  {
    var matched := false;
    for n := 0 to |patterns|
      invariant matched <==> SomeMatch(lib, patterns[..n], name, false)
      invariant !SomeMatch(lib, patterns[..n], name, true)
    {
      OneMorePattern(lib, patterns, n, name, false);
      OneMorePattern(lib, patterns, n, name, true);
      var negate := HasPrefix(patterns[n], "!");
      var q := TrimPrefix(patterns[n], "!");
      var ok;
      if HasPrefix(q, "|1|") {
        ok := lib.hashMatches(q, name);
      } else {
        ok := WildcardMatch(lib.lower(q), name);
      }
      if ok && negate {
        return false;
      }
      matched := matched || ok;
    }
    assert patterns[..|patterns|] == patterns;
    return matched;
  }

  /** The order of the patterns, and repeating one, make no difference. */
  lemma OrderIsIrrelevant(lib: Library, ps: seq<string>, qs: seq<string>, name: string)
    requires forall p :: p in ps <==> p in qs
    ensures HostMatches(lib, ps, name) == HostMatches(lib, qs, name)
  {
    forall negated ensures SomeMatch(lib, ps, name, negated) == SomeMatch(lib, qs, name, negated) {
      if p :| p in ps && Negated(p) == negated && PatternMatches(lib, p, name) { assert p in qs; }
      if p :| p in qs && Negated(p) == negated && PatternMatches(lib, p, name) { assert p in ps; }
    }
  }

  /**
   * For names without a `*` matching is the OpenSSH meaning: wildcards are judged declaratively.
   */
  lemma MatchesDeclaratively(lib: Library, patterns: seq<string>, name: string)
    requires '*' !in name
    ensures HostMatches(lib, patterns, name) <==>
      && (exists p :: p in patterns && !Negated(p) && MeansMatch(lib, p, name))
      && (forall p :: p in patterns && Negated(p) ==> !MeansMatch(lib, p, name))
  {
    forall p ensures PatternMatches(lib, p, name) <==> MeansMatch(lib, p, name) {
      Soundness(lib.lower(TrimPrefix(p, "!")), name);
      Completeness(lib.lower(TrimPrefix(p, "!")), name);
    }
    if p :| p in patterns && !Negated(p) && MeansMatch(lib, p, name) {
      assert PatternMatches(lib, p, name);
    }
  }

  ghost predicate MeansMatch(lib: Library, p: string, name: string) {
    var q := TrimPrefix(p, "!");
    if HasPrefix(q, "|1|") then lib.hashMatches(q, name) else Matches(lib.lower(q), name)
  }

  // ---------------------------------------------------------------- lookupHost

  /** knownHostName: port 22 is left out, other ports are written [host]:port. */
  function KnownHostName(lib: Library, addr: string): string {
    var hp := match SplitHostPort(addr) case Some(x) => x case None => HostPort("", "");
    var host := lib.lower(hp.host);
    if hp.port == "22" then host else "[" + host + "]:" + hp.port
  }

  lemma BracketedNames(a: string, p: string, b: string, q: string)
    requires NoBrackets(a) && NoBrackets(b)
    ensures "[" + a + "]:" + p == "[" + b + "]:" + q <==> a == b && p == q
  {
    FindAppend("[" + a, ']', ":" + p);
    FindAppend("[" + b, ']', ":" + q);
    assert "[" + a + "]:" + p == ("[" + a) + [']'] + (":" + p);
    assert "[" + b + "]:" + q == ("[" + b) + [']'] + (":" + q);
    assert ("[" + a)[1..] == a && ("[" + b)[1..] == b;
    assert (":" + p)[1..] == p && (":" + q)[1..] == q;
  }

  /** Two servers share a name in the file exactly when host (up to case) and port are the same. */
  lemma NamesTellServersApart(lib: Library, h: string, p: string, h': string, p': string)
    requires NoBrackets(h) && NoBrackets(h') && NoBrackets(lib.lower(h)) && NoBrackets(lib.lower(h'))
    requires NoBrackets(p) && ':' !in p && NoBrackets(p') && ':' !in p'
    ensures KnownHostName(lib, JoinHostPort(h, p)) == KnownHostName(lib, JoinHostPort(h', p'))
            <==> lib.lower(h) == lib.lower(h') && p == p'
  {
    SplitOfJoin(h, p);
    SplitOfJoin(h', p');
    var a, b := lib.lower(h), lib.lower(h');
    BracketedNames(a, p, b, p');
    assert ("[" + a + "]:" + p)[0] == '[' && ("[" + b + "]:" + p')[0] == '[';
  }

  datatype Found = Found(known: seq<Key>, revoked: seq<Key>)

  /** What one line of the file says about a host. */
  ghost function LineSays(lib: Library, line: string, name: string): Found {
    match lib.parse(line)
    case None => Found([], [])
    case Some(e) =>
      if e.marker == "cert-authority" || !HostMatches(lib, e.hosts, name) then Found([], [])
      else if e.marker == "revoked" then Found([], [e.key])
      else Found([e.key], [])
  }

  function Both(a: Found, b: Found): Found {
    Found(a.known + b.known, a.revoked + b.revoked)
  }

  ghost function LinesSay(lib: Library, lines: seq<string>, name: string): Found {
    if lines == [] then Found([], [])
    else Both(LinesSay(lib, lines[..|lines| - 1], name), LineSays(lib, Last(lines), name))
  }

  /** A file that does not exist says nothing. */
  ghost function FileSays(lib: Library, file: Option<string>, name: string): Found {
    match file
    case None => Found([], [])
    case Some(data) => LinesSay(lib, Split(data, '\n'), name)
  }

  /** The new contents of the file after appendKnownHost. */
  function Appended(lib: Library, file: Option<string>, name: string, key: Key): string {
    var line := name + " " + lib.authorized(key) + "\n";
    match file
    case None => line
    case Some(data) => if |data| > 0 && data[|data| - 1] != '\n' then data + "\n" + line else data + line
  }

  // ---------------------------------------------------------------- the store

  datatype Verdict = Accepted | Recorded | Revoked | Mismatch | ReadFailed | WriteFailed

  /** Which of the file operations of one call fail. */
  datatype Faults = Faults(read: bool, write: bool)

  /** checkHostKey as a function of the file. */
  ghost function Check(lib: Library, file: Option<string>, name: string, key: Key, f: Faults)
    : (Verdict, Option<string>)
  {
    var found := FileSays(lib, file, name);
    if f.read && file.Some? then (ReadFailed, file)
    else if key in found.revoked then (Revoked, file)
    else if key in found.known then (Accepted, file)
    else if found.known != [] then (Mismatch, file)
    else if f.write then (WriteFailed, file)
    else (Recorded, Some(Appended(lib, file, name, key)))
  }

  class Store {
    const lib: Library
    var file: Option<string>         // None: the file does not exist

    constructor (lib: Library, file: Option<string>)
      ensures this.lib == lib && this.file == file
    {
      this.lib, this.file := lib, file;
    }

    method LookupHost(addr: string, readFails: bool) returns (r: Option<Found>)
      ensures r.None? <==> readFails && file.Some?
      ensures r.Some? ==> r.value == FileSays(lib, file, KnownHostName(lib, addr))
    {
      if file.None? {
        return Some(Found([], []));
      }
      if readFails {
        return None;
      }
      var name := KnownHostName(lib, addr);
      var lines := Split(file.value, '\n');
      var known: seq<Key>, revoked: seq<Key> := [], [];
      for n := 0 to |lines|
        invariant Found(known, revoked) == LinesSay(lib, lines[..n], name)
      {
        assert lines[..n + 1][..n] == lines[..n];
        var e := lib.parse(lines[n]);
        if e.Some? && e.value.marker != "cert-authority" {
          var matches := MatchHost(lib, e.value.hosts, name);
          if matches {
            if e.value.marker == "revoked" {
              revoked := revoked + [e.value.key];
            } else {
              known := known + [e.value.key];
            }
          }
        }
      }
      assert lines[..|lines|] == lines;
      return Some(Found(known, revoked));
    }

    /** appendKnownHost, which first completes an unfinished last line. */
    method AppendKnownHost(addr: string, key: Key, writeFails: bool) returns (ok: bool)
      modifies this
      ensures ok <==> !writeFails
      ensures file == if ok then Some(Appended(lib, old(file), KnownHostName(lib, addr), key)) else old(file)
    {
      if writeFails {
        return false;
      }
      var line := KnownHostName(lib, addr) + " " + lib.authorized(key) + "\n";
      if file.Some? && |file.value| > 0 && file.value[|file.value| - 1] != '\n' {
        assert file.value + ("\n" + line) == file.value + "\n" + line;
        line := "\n" + line;
      }
      var data := if file.Some? then file.value else "";
      assert "" + line == line;
      file := Some(data + line);
      return true;
    }

    method CheckHostKey(addr: string, key: Key, f: Faults) returns (v: Verdict)
      modifies this
      ensures (v, file) == Check(lib, old(file), KnownHostName(lib, addr), key, f)
    {
      var r := LookupHost(addr, f.read);
      if r.None? {
        return ReadFailed;
      }
      if key in r.value.revoked {
        return Revoked;
      }
      if key in r.value.known {
        return Accepted;
      }
      if |r.value.known| > 0 {
        return Mismatch;
      }
      var ok := AppendKnownHost(addr, key, f.write);
      return if ok then Recorded else WriteFailed;
    }
  }

  // ---------------------------------------------------------------- the append

  /** A name the program can write as a single host: no pattern syntax and nothing that ends the field. */
  ghost predicate PlainName(lib: Library, name: string) {
    && name != "" && Literal(name) && lib.lower(name) == name
    && !HasPrefix(name, "!") && !HasPrefix(name, "|1|") && !HasPrefix(name, "#") && !HasPrefix(name, "@")
    && ',' !in name && forall i :: 0 <= i < |name| ==> !IsSpace(name[i])
  }

  /** What is taken from the library: a printed key parses back with its host, and a blank line gives nothing. */
  ghost predicate PrintedLinesParse(lib: Library) {
    && lib.parse("") == None
    && (forall key :: lib.isKey(key) ==> '\n' !in lib.authorized(key))
    && (forall name, key :: PlainName(lib, name) && lib.isKey(key) ==>
          lib.parse(name + " " + lib.authorized(key)) == Some(Entry("", [name], key)))
  }

  /** A library that reads a line as a host and, after the first space, a key. */
  lemma PrintedLinesCanParse() returns (lib: Library)
    ensures PrintedLinesParse(lib) && PlainName(lib, "h") && lib.isKey(Key("k")) && lib.isKey(Key("l"))
  {
    lib := Library(
      (key: Key) => '\n' !in key.blob,
      (line: string) => if ' ' in line then Some(Entry("", [Cut(line, ' ').before], Key(Cut(line, ' ').after)))
        else None,
      (pattern: string, name: string) => false, (name: string) => name, (key: Key) => key.blob);
    assert "h"[0] == 'h' && "!"[0] == '!' && "|1|"[0] == '|' && "#"[0] == '#' && "@"[0] == '@';
    forall name, key | PlainName(lib, name) && lib.isKey(key)
      ensures lib.parse(name + " " + lib.authorized(key)) == Some(Entry("", [name], key))
    {
      FindAppend(name, ' ', key.blob);
      assert name + " " + key.blob == name + [' '] + key.blob;
      assert (name + " " + key.blob)[|name|] == ' ';
    }
  }

  /** The lines of a file, not counting what follows the last newline when that is empty. */
  function Lines(data: string): seq<string> {
    var lines := Split(data, '\n');
    if Last(lines) == "" then lines[..|lines| - 1] else lines
  }

  lemma JoinFirst(c: char, ra: seq<string>, rb: seq<string>)
    requires |ra| > 0
    ensures [[c] + (ra + rb)[0]] + (ra + rb)[1..] == ([[c] + ra[0]] + ra[1..]) + rb
  {
    assert (ra + rb)[0] == ra[0] && (ra + rb)[1..] == ra[1..] + rb;
  }

  /** One more character in front of a text. */
  function Onto(c: char, lines: seq<string>): seq<string>
    requires |lines| >= 1
  {
    if c == '\n' then [""] + lines else [[c] + lines[0]] + lines[1..]
  }

  lemma SplitCons(s: string, c: char, rest: string)
    requires s == [c] + rest
    ensures Split(s, '\n') == Onto(c, Split(rest, '\n'))
  {
    assert s[0] == c && s[1..] == rest;
  }

  lemma OntoFirst(c: char, ra: seq<string>, rb: seq<string>)
    requires |ra| > 0
    ensures Onto(c, ra + rb) == Onto(c, ra) + rb
  {
    if c == '\n' { assert [""] + (ra + rb) == [""] + ra + rb; } else { JoinFirst(c, ra, rb); }
  }

  lemma {:induction false} SplitConcat(a: string, b: string)
    ensures Split(a + "\n" + b, '\n') == Split(a, '\n') + Split(b, '\n')
    decreases |a|
  {
    var s := a + "\n" + b;
    if a == "" {
      SplitCons(s, '\n', b);
    } else {
      var c, rest := a[0], a[1..] + "\n" + b;
      SplitConcat(a[1..], b);
      SplitCons(s, c, rest);
      SplitCons(a, c, a[1..]);
      OntoFirst(c, Split(a[1..], '\n'), Split(b, '\n'));
    }
  }

  lemma LinesOfTerminated(a: string)
    ensures Lines(a + "\n") == Split(a, '\n')
  {
    SplitConcat(a, "");
    assert a + "\n" + "" == a + "\n";
    assert Split("", '\n') == [""];
  }

  lemma {:induction false} LastLineEmpty(data: string)
    ensures Last(Split(data, '\n')) == "" <==> data == "" || data[|data| - 1] == '\n'
    decreases |data|
  {
    if data != "" {
      LastLineEmpty(data[1..]);
      var r := Split(data[1..], '\n');
      if |data| == 1 { assert data[1..] == "" && r == [""]; }
    }
  }

  /**
   * The append adds exactly one line and keeps the earlier ones, whether or not the file ended in a newline.
   */
  lemma AppendAddsOneLine(lib: Library, data: string, name: string, key: Key)
    requires '\n' !in name && '\n' !in lib.authorized(key)
    ensures Lines(Appended(lib, Some(data), name, key)) == Lines(data) + [name + " " + lib.authorized(key)]
    ensures data <= Appended(lib, Some(data), name, key)
  {
    var body := name + " " + lib.authorized(key);
    SplitWhole(body, '\n');
    LastLineEmpty(data);
    if data == "" {
      assert Appended(lib, Some(data), name, key) == body + "\n";
      LinesOfTerminated(body);
    } else if data[|data| - 1] == '\n' {
      var d := data[..|data| - 1];
      assert data == d + "\n";
      assert Appended(lib, Some(data), name, key) == (d + "\n" + body) + "\n";
      LinesOfTerminated(d);
      LinesOfTerminated(d + "\n" + body);
      SplitConcat(d, body);
    } else {
      assert Appended(lib, Some(data), name, key) == (data + "\n" + body) + "\n";
      LinesOfTerminated(data + "\n" + body);
      SplitConcat(data, body);
    }
  }

  /** Only Lines matters for a lookup. */
  lemma LinesAreEnough(lib: Library, data: string, name: string)
    requires lib.parse("") == None
    ensures FileSays(lib, Some(data), name) == LinesSay(lib, Lines(data), name)
  {
  }

  lemma LinesSayMore(lib: Library, lines: seq<string>, line: string, name: string)
    ensures LinesSay(lib, lines + [line], name) == Both(LinesSay(lib, lines, name), LineSays(lib, line, name))
  {
    assert (lines + [line])[..|lines|] == lines;
  }

  /** A printed line speaks for its own host only. */
  lemma PrintedLineSays(lib: Library, host: string, key: Key, name: string)
    requires PrintedLinesParse(lib) && PlainName(lib, host) && lib.isKey(key)
    ensures LineSays(lib, host + " " + lib.authorized(key), name) == Found(if host == name then [key] else [], [])
  {
    LiteralPattern(host, name);
    assert host in [host];
    assert TrimPrefix(host, "!") == host;
    assert PatternMatches(lib, host, name) <==> host == name;
  }

  /** Recording a key for one host adds it to that host and changes no other host's lookup. */
  lemma AppendIsLocal(lib: Library, file: Option<string>, host: string, key: Key, name: string)
    requires PrintedLinesParse(lib) && PlainName(lib, host) && lib.isKey(key)
    ensures FileSays(lib, Some(Appended(lib, file, host, key)), name)
            == Both(FileSays(lib, file, name), Found(if host == name then [key] else [], []))
  {
    var data := if file.Some? then file.value else "";
    assert Appended(lib, file, host, key) == Appended(lib, Some(data), host, key);
    AppendAddsOneLine(lib, data, host, key);
    LinesAreEnough(lib, Appended(lib, Some(data), host, key), name);
    LinesAreEnough(lib, data, name);
    LinesSayMore(lib, Lines(data), host + " " + lib.authorized(key), name);
    PrintedLineSays(lib, host, key, name);
    assert Split("", '\n') == [""];
    assert LinesSay(lib, [""], name) == Both(LinesSay(lib, [], name), LineSays(lib, "", name));
  }

  // ---------------------------------------------------------------- trust on first use

  datatype Call = Call(name: string, key: Key, faults: Faults)

  /** A check as the SSH library makes it: a plain host name, and a key that was parsed from the wire. */
  ghost predicate Genuine(lib: Library, c: Call) {
    PlainName(lib, c.name) && lib.isKey(c.key)
  }

  predicate Good(v: Verdict) {
    v == Accepted || v == Recorded
  }

  /** The file after a sequence of checks. */
  ghost function After(lib: Library, file: Option<string>, calls: seq<Call>): Option<string> {
    if calls == [] then file
    else
      var c := Last(calls);
      Check(lib, After(lib, file, calls[..|calls| - 1]), c.name, c.key, c.faults).1
  }

  ghost function VerdictAt(lib: Library, file: Option<string>, calls: seq<Call>, i: nat): Verdict
    requires i < |calls|
  {
    Check(lib, After(lib, file, calls[..i]), calls[i].name, calls[i].key, calls[i].faults).0
  }

  /** The first call that accepted a key for `name`. */
  ghost predicate FirstAccepted(lib: Library, file: Option<string>, calls: seq<Call>, name: string, i: nat) {
    && i < |calls| && calls[i].name == name && Good(VerdictAt(lib, file, calls, i))
    && NoneAccepted(lib, file, calls, name, i)
  }

  /** None of the first n calls accepted a key for `name`. */
  ghost predicate NoneAccepted(lib: Library, file: Option<string>, calls: seq<Call>, name: string, n: nat)
    requires n <= |calls|
  {
    forall i :: 0 <= i < n && calls[i].name == name ==> !Good(VerdictAt(lib, file, calls, i))
  }

  /** One check changes what the file says about a host only by recording the first key of that host. */
  lemma CheckIsLocal(lib: Library, file: Option<string>, c: Call, name: string)
    requires PrintedLinesParse(lib) && Genuine(lib, c)
    ensures var found := FileSays(lib, file, name); var (v, file') := Check(lib, file, c.name, c.key, c.faults);
      if c.name == name && v == Recorded then found.known == []
          && FileSays(lib, file', name) == Found([c.key], found.revoked)
      else FileSays(lib, file', name) == found
  {
    AppendIsLocal(lib, file, c.name, c.key, name);
  }

  /** The calls made so far are not affected by one more. */
  lemma EarlierVerdicts(lib: Library, file: Option<string>, calls: seq<Call>, name: string, n: nat)
    requires n <= |calls|
    ensures NoneAccepted(lib, file, calls[..n], name, n) ==> NoneAccepted(lib, file, calls, name, n)
    ensures forall i :: FirstAccepted(lib, file, calls[..n], name, i) ==> FirstAccepted(lib, file, calls, name, i)
  {
    forall i: nat | i < n ensures VerdictAt(lib, file, calls[..n], i) == VerdictAt(lib, file, calls, i) {
      assert calls[..n][..i] == calls[..i];
    }
  }

  /** What the file says about a host after the calls, in terms of the first one that accepted a key for it. */
  ghost predicate PinnedTo(lib: Library, file: Option<string>, calls: seq<Call>, name: string, first: Option<nat>) {
    && (first.Some? ==> FirstAccepted(lib, file, calls, name, first.value))
    && (first.None? ==> NoneAccepted(lib, file, calls, name, |calls|))
    && KeysPinned(FileSays(lib, file, name), FileSays(lib, After(lib, file, calls), name),
                  if first.Some? then Some(calls[first.value].key) else None)
  }

  /** Nothing changed but, if there was no known key, that the one accepted first became known. */
  predicate KeysPinned(before: Found, after: Found, first: Option<Key>) {
    && after.revoked == before.revoked
    && after.known == if before.known == [] && first.Some? then [first.value] else before.known
  }

  /** With nothing known before, a good verdict can only be the recording one. */
  lemma FirstIsRecorded(lib: Library, file: Option<string>, calls: seq<Call>, n: nat)
    requires n < |calls| && Good(VerdictAt(lib, file, calls, n))
    ensures FileSays(lib, After(lib, file, calls[..n]), calls[n].name).known == [] ==>
      VerdictAt(lib, file, calls, n) == Recorded
  {
  }

  /** CheckIsLocal for the last call of a sequence. */
  lemma LastCallIsLocal(lib: Library, file: Option<string>, calls: seq<Call>, n: nat, name: string)
    requires PrintedLinesParse(lib) && |calls| == n + 1 && Genuine(lib, calls[n])
    ensures var found := FileSays(lib, After(lib, file, calls[..n]), name);
      var found' := FileSays(lib, After(lib, file, calls), name);
      if calls[n].name == name && VerdictAt(lib, file, calls, n) == Recorded
      then found.known == [] && found' == Found([calls[n].key], found.revoked)
      else found' == found
  {
    CheckIsLocal(lib, After(lib, file, calls[..n]), calls[n], name);
  }

  /** The call that accepted first, with one more call. */
  lemma OneMoreFirst(lib: Library, file: Option<string>, calls: seq<Call>, n: nat, name: string, prior: Option<nat>)
    returns (first: Option<nat>)
    requires |calls| == n + 1
    requires prior.Some? ==> FirstAccepted(lib, file, calls[..n], name, prior.value)
    requires prior.None? ==> NoneAccepted(lib, file, calls[..n], name, n)
    ensures first.Some? ==> FirstAccepted(lib, file, calls, name, first.value)
    ensures first.None? ==> NoneAccepted(lib, file, calls, name, |calls|)
    ensures first
            == if prior.None? && calls[n].name == name && Good(VerdictAt(lib, file, calls, n)) then Some(n) else prior
  {
    EarlierVerdicts(lib, file, calls, name, n);
    first := if prior.None? && calls[n].name == name && Good(VerdictAt(lib, file, calls, n)) then Some(n) else prior;
  }

  lemma OneMoreCall(lib: Library, file: Option<string>, calls: seq<Call>, n: nat, name: string, prior: Option<nat>)
    returns (first: Option<nat>)
    requires PrintedLinesParse(lib) && |calls| == n + 1 && Genuine(lib, calls[n])
    requires PinnedTo(lib, file, calls[..n], name, prior)
    ensures PinnedTo(lib, file, calls, name, first)
  {
    first := OneMoreFirst(lib, file, calls, n, name, prior);
    LastCallIsLocal(lib, file, calls, n, name);
    if first == Some(n) { FirstIsRecorded(lib, file, calls, n); }
  }

  /**
   * Over any sequence of checks a host's revoked keys never change, and its known keys change at
   * most once: from none to the one key accepted first.
   */
  lemma {:induction false} TrustOnFirstUse(lib: Library, file: Option<string>, calls: seq<Call>, name: string)
    returns (first: Option<nat>)
    requires PrintedLinesParse(lib)
    requires forall i :: 0 <= i < |calls| ==> Genuine(lib, calls[i])
    ensures PinnedTo(lib, file, calls, name, first)
    decreases |calls|
  {
    first := None;
    if calls != [] {
      var n := |calls| - 1;
      var prior := TrustOnFirstUse(lib, file, calls[..n], name);
      first := OneMoreCall(lib, file, calls, n, name, prior);
    }
  }

  /**
   * What a check answers: a key is accepted exactly when it is recorded and not revoked, or when the
   * host has no known key yet; and the file changes only in that last case.
   */
  lemma CheckAnswers(lib: Library, file: Option<string>, name: string, key: Key, f: Faults)
    requires PrintedLinesParse(lib) && PlainName(lib, name) && lib.isKey(key)
    ensures var found := FileSays(lib, file, name); var (v, file') := Check(lib, file, name, key, f);
      && (v == Accepted <==> !(f.read && file.Some?) && key in found.known && key !in found.revoked)
      && (v == Recorded <==> !(f.read && file.Some?) && !f.write && found.known == [] && key !in found.revoked)
      && (file' != file ==> v == Recorded)
      && (Good(v) ==> key in FileSays(lib, file', name).known && key !in FileSays(lib, file', name).revoked)
  {
    AppendIsLocal(lib, file, name, key, name);
  }

  lemma AcceptedIsNotRevoked(lib: Library, file: Option<string>, calls: seq<Call>, i: nat)
    requires PrintedLinesParse(lib)
    requires forall j :: 0 <= j < |calls| ==> Genuine(lib, calls[j])
    requires i < |calls| && Good(VerdictAt(lib, file, calls, i))
    ensures calls[i].key !in FileSays(lib, file, calls[i].name).revoked
  {
    var first := TrustOnFirstUse(lib, file, calls[..i], calls[i].name);
    CheckAnswers(lib, After(lib, file, calls[..i]), calls[i].name, calls[i].key, calls[i].faults);
  }

  /**
   * Once a key has been accepted for a host with no earlier record, that host accepts exactly the
   * key accepted first, whatever other checks came between.
   */
  lemma AcceptedKeyIsPinned(lib: Library, file: Option<string>, calls: seq<Call>, name: string, key: Key)
    returns (i: nat)
    requires PrintedLinesParse(lib) && PlainName(lib, name) && lib.isKey(key)
    requires forall j :: 0 <= j < |calls| ==> Genuine(lib, calls[j])
    requires FileSays(lib, file, name).known == [] && !NoneAccepted(lib, file, calls, name, |calls|)
    ensures FirstAccepted(lib, file, calls, name, i)
    ensures Good(Check(lib, After(lib, file, calls), name, key, Faults(false, false)).0) <==> key == calls[i].key
  {
    var first := TrustOnFirstUse(lib, file, calls, name);
    i := first.value;
    AcceptedIsNotRevoked(lib, file, calls, i);
    CheckAnswers(lib, After(lib, file, calls), name, key, Faults(false, false));
  }
}
