/** The text by which a reloaded proxy is compared with a running one, and a reader that takes it apart again. */
module Fingerprint {
  import opened Basics
  import opened Text
  import opened ConfigModel

  /** strconv.IsPrint. */
  type IsPrint = char -> bool

  // ---------------------------------------------------------------- hexadecimal

  function HexDigit(n: nat): char
    requires n < 16
  {
    if n < 10 then '0' + (n as char) else 'a' + ((n - 10) as char)
  }

  function HexValue(c: char): nat {
    if '0' <= c <= '9' then c as nat - '0' as nat
    else if 'a' <= c <= 'f' then c as nat - 'a' as nat + 10
    else 0
  }

  /** The last w hexadecimal digits of n. */
  function Hex(n: nat, w: nat): (r: string)
    ensures |r| == w
  {
    if w == 0 then "" else Hex(n / 16, w - 1) + [HexDigit(n % 16)]
  }

  function Unhex(s: string): nat {
    if s == "" then 0 else Unhex(s[..|s| - 1]) * 16 + HexValue(s[|s| - 1])
  }

  function Pow16(w: nat): nat {
    if w == 0 then 1 else 16 * Pow16(w - 1)
  }

  lemma {:induction false} HexReadsBack(n: nat, w: nat)
    requires n < Pow16(w)
    ensures Unhex(Hex(n, w)) == n
    decreases w
  {
    if w > 0 {
      HexReadsBack(n / 16, w - 1);
      assert Hex(n, w)[..w - 1] == Hex(n / 16, w - 1);
      assert HexValue(HexDigit(n % 16)) == n % 16;
    }
  }

  // ---------------------------------------------------------------- strconv.Quote

  /** The control characters with a letter of their own. */
  function Letter(c: char): Option<char> {
    match c
    case '\U{07}' => Some('a')
    case '\U{08}' => Some('b')
    case '\U{0C}' => Some('f')
    case '\n' => Some('n')
    case '\r' => Some('r')
    case '\t' => Some('t')
    case '\U{0B}' => Some('v')
    case _ => None
  }

  function Unletter(c: char): Option<char> {
    match c
    case 'a' => Some('\U{07}')
    case 'b' => Some('\U{08}')
    case 'f' => Some('\U{0C}')
    case 'n' => Some('\n')
    case 'r' => Some('\r')
    case 't' => Some('\t')
    case 'v' => Some('\U{0B}')
    case '"' => Some('"')
    case '\\' => Some('\\')
    case _ => None
  }

  /** The letter that announces a hexadecimal code, and how many digits follow. */
  function Width(c: char): nat {
    if c == 'x' then 2 else if c == 'u' then 4 else 8
  }

  function CodeKind(c: char): char {
    if c < ' ' || c == '\U{7F}' then 'x' else if c as nat < 0x10000 then 'u' else 'U'
  }

  function Escape(isPrint: IsPrint, c: char): string {
    if c == '"' || c == '\\' then ['\\', c]
    else if isPrint(c) then [c]
    else if Letter(c).Some? then ['\\', Letter(c).value]
    else ['\\', CodeKind(c)] + Hex(c as nat, Width(CodeKind(c)))
  }

  function Escaped(e: char -> string, s: string): string {
    if s == "" then "" else e(s[0]) + Escaped(e, s[1..])
  }

  function Quoted(isPrint: IsPrint, s: string): string {
    "\"" + Escaped((c: char) => Escape(isPrint, c), s) + "\""
  }

  // ---------------------------------------------------------------- reading a quoted text

  datatype Read<+T> = Read(val: T, rest: string)

  function ReadCode(s: string, w: nat): (r: Option<Read<char>>)
    ensures r.Some? ==> |r.value.rest| == |s| - w
  {
    if |s| < w then None
    else
      var n := Unhex(s[..w]);
      if n < 0xD800 || 0xE000 <= n < 0x110000 then Some(Read(n as char, s[w..])) else None
  }

  function ReadChar(s: string): (r: Option<Read<char>>)
    ensures r.Some? ==> |r.value.rest| < |s|
  {
    if s == "" then None
    else if s[0] != '\\' then Some(Read(s[0], s[1..]))
    else if |s| == 1 then None
    else if Unletter(s[1]).Some? then Some(Read(Unletter(s[1]).value, s[2..]))
    else if s[1] == 'x' || s[1] == 'u' || s[1] == 'U' then ReadCode(s[2..], Width(s[1]))
    else None
  }

  /** Reads one character, escaped or not. */
  type CharReader = string -> Option<Read<char>>

  ghost predicate CharShrinks(f: CharReader) {
    forall s :: f(s).Some? ==> |f(s).value.rest| < |s|
  }

  /** A text up to its closing quote. */
  function ReadBody(f: CharReader, s: string, seen: string): (r: Option<Read<string>>)
    requires CharShrinks(f)
    ensures r.Some? ==> |r.value.rest| < |s|
    decreases |s|
  {
    if s == "" then None
    else if s[0] == '"' then Some(Read(seen, s[1..]))
    else
      var c :- f(s);
      ReadBody(f, c.rest, seen + [c.val])
  }

  function ReadQuoted(s: string): (r: Option<Read<string>>)
    ensures r.Some? ==> |r.value.rest| < |s|
  {
    if s == "" || s[0] != '"' then None
    else
      var f := (t: string) => ReadChar(t);
      assert CharShrinks(f);
      ReadBody(f, s[1..], "")
  }

  lemma LetterReadsBack(c: char)
    requires Letter(c).Some?
    ensures Unletter(Letter(c).value) == Some(c)
  {
  }

  lemma Powers()
    ensures Pow16(2) == 0x100 && Pow16(4) == 0x10000 && Pow16(8) == 0x1_0000_0000
  {
    assert Pow16(1) == 16;
    assert Pow16(3) == 0x1000;
    assert Pow16(5) == 0x100000;
    assert Pow16(6) == 0x1000000;
    assert Pow16(7) == 0x10000000;
  }

  lemma CodeReadsBack(c: char, rest: string)
    ensures var k := CodeKind(c); ReadCode(Hex(c as nat, Width(k)) + rest, Width(k)) == Some(Read(c, rest))
  {
    var w := Width(CodeKind(c));
    Powers();
    HexReadsBack(c as nat, w);
    var h := Hex(c as nat, w);
    assert (h + rest)[..w] == h && (h + rest)[w..] == rest;
  }

  lemma PlainReadsBack(c: char, rest: string)
    requires c != '\\'
    ensures ReadChar([c] + rest) == Some(Read(c, rest))
  {
    assert ([c] + rest)[1..] == rest;
  }

  lemma LetterEscapeReadsBack(l: char, c: char, rest: string)
    requires Unletter(l) == Some(c)
    ensures ReadChar(['\\', l] + rest) == Some(Read(c, rest))
  {
    assert (['\\', l] + rest)[2..] == rest;
  }

  lemma CodeEscapeReadsBack(k: char, code: string, c: char, rest: string)
    requires (k == 'x' || k == 'u' || k == 'U') && ReadCode(code + rest, Width(k)) == Some(Read(c, rest))
    ensures ReadChar(['\\', k] + code + rest) == Some(Read(c, rest))
  {
    assert (['\\', k] + code + rest)[2..] == code + rest;
  }

  lemma CharReadsBack(isPrint: IsPrint, c: char, rest: string)
    ensures ReadChar(Escape(isPrint, c) + rest) == Some(Read(c, rest))
  {
    if c == '"' || c == '\\' {
      LetterEscapeReadsBack(c, c, rest);
    } else if isPrint(c) {
      PlainReadsBack(c, rest);
    } else if Letter(c).Some? {
      LetterReadsBack(c);
      LetterEscapeReadsBack(Letter(c).value, c, rest);
    } else {
      CodeReadsBack(c, rest);
      CodeEscapeReadsBack(CodeKind(c), Hex(c as nat, Width(CodeKind(c))), c, rest);
    }
  }

  predicate CharBack(f: CharReader, e: char -> string, c: char, rest: string) {
    e(c) != "" && e(c)[0] != '"' && f(e(c) + rest) == Some(Read(c, rest))
  }

  lemma BodyStep(f: CharReader, ec: string, c: char, more: string, seen: string)
    requires CharShrinks(f) && ec != "" && ec[0] != '"' && f(ec + more) == Some(Read(c, more))
    ensures ReadBody(f, ec + more, seen) == ReadBody(f, more, seen + [c])
  {
  }

  lemma {:induction false} BodyReadsBack(f: CharReader, e: char -> string, v: string, rest: string, seen: string)
    requires CharShrinks(f) && forall c, more :: CharBack(f, e, c, more)
    ensures ReadBody(f, Escaped(e, v) + "\"" + rest, seen) == Some(Read(seen + v, rest))
    decreases |v|
  {
    if v == "" {
      assert ("" + "\"" + rest)[1..] == rest && seen + v == seen;
    } else {
      var body := Escaped(e, v[1..]);
      var more := body + "\"" + rest;
      assert CharBack(f, e, v[0], more);
      BodyStep(f, e(v[0]), v[0], more, seen);
      BodyReadsBack(f, e, v[1..], rest, seen + [v[0]]);
      assert e(v[0]) + body + "\"" + rest == e(v[0]) + more;
      assert seen + [v[0]] + v[1..] == seen + v;
    }
  }

  lemma EscapeStart(isPrint: IsPrint, c: char)
    ensures Escape(isPrint, c) != "" && Escape(isPrint, c)[0] != '"'
  {
  }

  /** A quoted text followed by anything reads back: no text's quoted form is the beginning of another's. */
  lemma QuotedReadsBack(isPrint: IsPrint, v: string, rest: string)
    ensures ReadQuoted(Quoted(isPrint, v) + rest) == Some(Read(v, rest))
  {
    var e, f := (c: char) => Escape(isPrint, c), (t: string) => ReadChar(t);
    forall c, more ensures CharBack(f, e, c, more) {
      EscapeStart(isPrint, c);
      CharReadsBack(isPrint, c, more);
    }
    BodyReadsBack(f, e, v, rest, "");
    QuotedIs(e, Escaped(e, v), rest);
    assert "" + v == v;
  }

  lemma QuotedIs(e: char -> string, body: string, rest: string)
    ensures var s := "\"" + body + "\"" + rest; s[0] == '"' && s[1..] == body + "\"" + rest
  {
  }

  // ---------------------------------------------------------------- the fingerprint

  /** %q of one text. */
  type Writer = string -> string

  /** %d */
  function Number(n: int): string {
    if n < 0 then "-" + Itoa(-n) else Itoa(n)
  }

  /** %q of a list, after its opening bracket. */
  function KeysText(w: Writer, keys: seq<string>, first: bool): string
    decreases |keys|
  {
    if keys == [] then "]"
    else (if first then "" else " ") + (w(keys[0]) + KeysText(w, keys[1..], false))
  }

  function HopText(w: Writer, s: Server): string {
    w(s.user) + " " + w(s.host) + " " + Number(s.port) + " [" + KeysText(w, s.keys, true)
    + " " + w(s.password) + " " + w(s.passphrase)
  }

  function ChainText(w: Writer, chain: seq<Server>): string
    decreases |chain|
  {
    if chain == [] then "" else " | " + HopText(w, chain[0]) + ChainText(w, chain[1..])
  }

  function ProxyText(w: Writer, p: Proxy): string {
    w(p.listen) + " " + w(p.user) + " " + w(p.pass) + ChainText(w, p.chain)
  }

  function FingerprintOf(isPrint: IsPrint, p: Proxy): string {
    ProxyText((v: string) => Quoted(isPrint, v), p)
  }

  method KeyList(w: Writer, keys: seq<string>) returns (b: string)
    ensures b == "[" + KeysText(w, keys, true)
  {
    b := "[";
    for i := 0 to |keys|
      invariant b + KeysText(w, keys[i..], i == 0) == "[" + KeysText(w, keys, true)
    {
      ghost var key, rest := w(keys[i]), KeysText(w, keys[i + 1..], false);
      assert keys[i..][1..] == keys[i + 1..];
      assert b + ((if i == 0 then "" else " ") + (key + rest)) == b + (if i == 0 then "" else " ") + key + rest;
      b := b + (if i == 0 then "" else " ") + w(keys[i]);
    }
    b := b + "]";
  }

  /** Proxy.fingerprint, with the loops of its formatting. */
  method Fingerprint(isPrint: IsPrint, p: Proxy) returns (b: string)
    ensures b == FingerprintOf(isPrint, p)
  {
    var w := (v: string) => Quoted(isPrint, v);
    b := w(p.listen) + " " + w(p.user) + " " + w(p.pass);
    for i := 0 to |p.chain|
      invariant b + ChainText(w, p.chain[i..]) == ProxyText(w, p)
    {
      var s := p.chain[i];
      assert p.chain[i..][1..] == p.chain[i + 1..];
      var keys := KeyList(w, s.keys);
      var hop := w(s.user) + " " + w(s.host) + " " + Number(s.port) + " " + keys
        + " " + w(s.password) + " " + w(s.passphrase);
      BracketMoves(w(s.user) + " " + w(s.host) + " " + Number(s.port), KeysText(w, s.keys, true));
      AppendHop(b, hop, ChainText(w, p.chain[i + 1..]));
      b := b + " | " + hop;
    }
  }

  lemma BracketMoves(a: string, b: string)
    ensures a + " " + ("[" + b) == a + " [" + b
  {
  }

  lemma AppendHop(b: string, hop: string, rest: string)
    ensures b + (" | " + hop + rest) == b + " | " + hop + rest
  {
  }

  // ---------------------------------------------------------------- reading a fingerprint

  /** What a fingerprint tells: everything about the proxy but the names of its servers. */
  datatype Parts = Parts(listen: string, user: string, pass: string, hops: seq<HopParts>)

  datatype HopParts = HopParts(user: string, host: string, port: int, keys: seq<string>, password: string,
                               passphrase: string)

  function HopPartsOf(s: Server): HopParts {
    HopParts(s.user, s.host, s.port, s.keys, s.password, s.passphrase)
  }

  function HopsPartsOf(chain: seq<Server>): (r: seq<HopParts>)
    ensures |r| == |chain| && forall i :: 0 <= i < |chain| ==> r[i] == HopPartsOf(chain[i])
  {
    seq(|chain|, i requires 0 <= i < |chain| => HopPartsOf(chain[i]))
  }

  function PartsOf(p: Proxy): Parts {
    Parts(p.listen, p.user, p.pass, HopsPartsOf(p.chain))
  }

  /** Reads one quoted text at the beginning of s. */
  type Reader = string -> Option<Read<string>>

  ghost predicate Shrinks(q: Reader) {
    forall s :: q(s).Some? ==> |q(s).value.rest| < |s|
  }

  predicate ReadsBack(q: Reader, w: Writer, v: string, rest: string) {
    w(v) != "" && w(v)[0] == '"' && q(w(v) + rest) == Some(Read(v, rest))
  }

  /** q reads what w writes, whatever follows it. */
  ghost predicate Undoes(q: Reader, w: Writer) {
    Shrinks(q) && forall v, rest :: ReadsBack(q, w, v, rest)
  }

  function Expect(s: string, lit: string): (r: Option<string>)
    ensures r.Some? ==> |r.value| == |s| - |lit|
  {
    if lit <= s then Some(s[|lit|..]) else None
  }

  /** A number up to the next space. */
  function ReadNumber(s: string): (r: Option<Read<int>>)
    ensures r.Some? ==> |r.value.rest| <= |s|
  {
    var i := Find(s, ' ');
    var n :- Atoi(s[..i]);
    Some(Read(n, s[i..]))
  }

  function ReadKeys(q: Reader, s: string, seen: seq<string>): (r: Option<Read<seq<string>>>)
    requires Shrinks(q)
    ensures r.Some? ==> |r.value.rest| <= |s|
    decreases |s|
  {
    if s != "" && s[0] == ']' then Some(Read(seen, s[1..]))
    else
      var t :- if seen == [] then Some(s) else Expect(s, " ");
      var k :- q(t);
      ReadKeys(q, k.rest, seen + [k.val])
  }

  /** A quoted text and the space after it. */
  function ReadField(q: Reader, s: string): (r: Option<Read<string>>)
    requires Shrinks(q)
    ensures r.Some? ==> |r.value.rest| < |s|
  {
    var v :- q(s);
    var t :- Expect(v.rest, " ");
    Some(Read(v.val, t))
  }

  /** user, host and port of a hop */
  function ReadAddress(q: Reader, s: string): (r: Option<Read<HopParts>>)
    requires Shrinks(q)
    ensures r.Some? ==> |r.value.rest| <= |s|
  {
    var user :- ReadField(q, s);
    var host :- ReadField(q, user.rest);
    var port :- ReadNumber(host.rest);
    var rest :- Expect(port.rest, " [");
    Some(Read(HopParts(user.val, host.val, port.val, [], "", ""), rest))
  }

  /** keys, password and passphrase of a hop */
  function ReadSecrets(q: Reader, h: HopParts, s: string): (r: Option<Read<HopParts>>)
    requires Shrinks(q)
    ensures r.Some? ==> |r.value.rest| <= |s|
  {
    var keys :- ReadKeys(q, s, []);
    var t :- Expect(keys.rest, " ");
    var password :- ReadField(q, t);
    var passphrase :- q(password.rest);
    Some(Read(h.(keys := keys.val, password := password.val, passphrase := passphrase.val), passphrase.rest))
  }

  function ReadHop(q: Reader, s: string): (r: Option<Read<HopParts>>)
    requires Shrinks(q)
    ensures r.Some? ==> |r.value.rest| <= |s|
  {
    var h :- ReadAddress(q, s);
    ReadSecrets(q, h.val, h.rest)
  }

  function ReadHops(q: Reader, s: string): Option<seq<HopParts>>
    requires Shrinks(q)
    decreases |s|
  {
    if s == "" then Some([])
    else
      var t :- Expect(s, " | ");
      var h :- ReadHop(q, t);
      var rest :- ReadHops(q, h.rest);
      Some([h.val] + rest)
  }

  function ReadProxy(q: Reader, s: string): Option<Parts>
    requires Shrinks(q)
  {
    var listen :- ReadField(q, s);
    var user :- ReadField(q, listen.rest);
    var pass :- q(user.rest);
    var hops :- ReadHops(q, pass.rest);
    Some(Parts(listen.val, user.val, pass.val, hops))
  }

  function ReadFingerprint(s: string): Option<Parts> {
    var q := (t: string) => ReadQuoted(t);
    assert Shrinks(q);
    ReadProxy(q, s)
  }

  // ---------------------------------------------------------------- unique decodability

  lemma Expected(lit: string, rest: string)
    ensures Expect(lit + rest, lit) == Some(rest)
  {
  }

  lemma FieldReadsBack(q: Reader, w: Writer, v: string, rest: string)
    requires Undoes(q, w)
    ensures ReadField(q, w(v) + (" " + rest)) == Some(Read(v, rest))
  {
    assert ReadsBack(q, w, v, " " + rest);
    Expected(" ", rest);
  }

  lemma NumberReadsBack(n: int, rest: string)
    ensures ReadNumber(Number(n) + (" " + rest)) == Some(Read(n, " " + rest))
  {
    var t := Number(n);
    assert t + (" " + rest) == t + [' '] + rest;
    assert ' ' !in t;
    FindAppend(t, ' ', rest);
    var s := t + (" " + rest);
    assert s[..|t|] == t && s[|t|..] == " " + rest;
    if n < 0 {
      DigitsOfItoa(-n);
      assert t[1..] == Itoa(-n);
    } else {
      AtoiOfItoa(n);
    }
  }

  /** One key and what follows it. */
  lemma KeyReadsBack(q: Reader, wk: string, k: string, more: string, seen: seq<string>)
    requires Shrinks(q) && wk != "" && wk[0] == '"' && q(wk + more) == Some(Read(k, more))
    ensures ReadKeys(q, (if seen == [] then "" else " ") + (wk + more), seen) == ReadKeys(q, more, seen + [k])
  {
    var t := wk + more;
    Expected(" ", t);
    assert "" + t == t;
  }

  lemma KeysTextIs(w: Writer, keys: seq<string>, first: bool, rest: string, more: string)
    requires keys != [] && more == KeysText(w, keys[1..], false) + rest
    ensures KeysText(w, keys, first) + rest == (if first then "" else " ") + (w(keys[0]) + more)
  {
  }

  lemma KeyThenMore(q: Reader, s: string, wk: string, k: string, more: string, seen: seq<string>,
                    r: Option<Read<seq<string>>>)
    requires Shrinks(q) && wk != "" && wk[0] == '"' && q(wk + more) == Some(Read(k, more))
    requires s == (if seen == [] then "" else " ") + (wk + more) && ReadKeys(q, more, seen + [k]) == r
    ensures ReadKeys(q, s, seen) == r
  {
    KeyReadsBack(q, wk, k, more, seen);
  }

  lemma NoMoreKeys(q: Reader, rest: string, seen: seq<string>)
    requires Shrinks(q)
    ensures ReadKeys(q, "]" + rest, seen) == Some(Read(seen, rest))
  {
    assert ("]" + rest)[1..] == rest;
  }

  /** A list text s, read after the keys seen, gives r: those keys, then its own, and what follows. */
  lemma {:induction false} ListReadsBack(q: Reader, w: Writer, keys: seq<string>, rest: string, seen: seq<string>,
                                         s: string, r: Option<Read<seq<string>>>)
    requires Undoes(q, w) && s == KeysText(w, keys, seen == []) + rest && r == Some(Read(seen + keys, rest))
    ensures ReadKeys(q, s, seen) == r
    decreases |keys|
  {
    if keys == [] {
      NoMoreKeys(q, rest, seen);
      assert seen + keys == seen;
    } else {
      var k, more := keys[0], KeysText(w, keys[1..], false) + rest;
      assert seen + [k] + keys[1..] == seen + keys;
      ListReadsBack(q, w, keys[1..], rest, seen + [k], more, r);
      assert ReadsBack(q, w, k, more);
      KeysTextIs(w, keys, seen == [], rest, more);
      KeyThenMore(q, s, w(k), k, more, seen, r);
    }
  }

  lemma KeysReadBack(q: Reader, w: Writer, keys: seq<string>, rest: string)
    requires Undoes(q, w)
    ensures ReadKeys(q, KeysText(w, keys, true) + rest, []) == Some(Read(keys, rest))
  {
    assert [] + keys == keys;
    ListReadsBack(q, w, keys, rest, [], KeysText(w, keys, true) + rest, Some(Read(keys, rest)));
  }

  lemma AddressFromFields(q: Reader, s: string, t1: string, t2: string, t3: string, t: string, h: HopParts)
    requires Shrinks(q) && ReadField(q, s) == Some(Read(h.user, t1)) && ReadField(q, t1) == Some(Read(h.host, t2))
    requires ReadNumber(t2) == Some(Read(h.port, t3)) && t3 == " [" + t
    ensures ReadAddress(q, s) == Some(Read(HopParts(h.user, h.host, h.port, [], "", ""), t))
  {
    Expected(" [", t);
  }

  lemma AddressReadsBack(q: Reader, w: Writer, h: HopParts, t2: string, t: string)
    requires Undoes(q, w) && t2 == Number(h.port) + (" " + ("[" + t))
    ensures ReadAddress(q, w(h.user) + (" " + (w(h.host) + (" " + t2))))
            == Some(Read(HopParts(h.user, h.host, h.port, [], "", ""), t))
  {
    var t1 := w(h.host) + (" " + t2);
    FieldReadsBack(q, w, h.user, t1);
    FieldReadsBack(q, w, h.host, t2);
    NumberReadsBack(h.port, "[" + t);
    assert " " + ("[" + t) == " [" + t;
    AddressFromFields(q, w(h.user) + (" " + t1), t1, t2, " [" + t, t, h);
  }

  lemma SecretsReadBack(q: Reader, w: Writer, h: HopParts, keys: seq<string>, password: string, passphrase: string,
                        rest: string)
    requires Undoes(q, w)
    ensures ReadSecrets(q, h, KeysText(w, keys, true) + (" " + (w(password) + (" " + (w(passphrase) + rest)))))
            == Some(Read(h.(keys := keys, password := password, passphrase := passphrase), rest))
  {
    var t6 := w(passphrase) + rest;
    var t5 := w(password) + (" " + t6);
    KeysReadBack(q, w, keys, " " + t5);
    Expected(" ", t5);
    FieldReadsBack(q, w, password, t6);
    assert ReadsBack(q, w, passphrase, rest);
  }

  lemma RegroupEnd(d: string, e: string, f: string, rest: string)
    ensures d + " " + e + " " + f + rest == d + (" " + (e + (" " + (f + rest))))
  {
  }

  lemma RegroupStart(a: string, b: string, c: string, d: string, e: string, f: string, rest: string)
    ensures a + " " + b + " " + c + " [" + d + " " + e + " " + f + rest
            == a + (" " + (b + (" " + (c + (" " + ("[" + (d + " " + e + " " + f + rest)))))))
  {
    var tail := d + " " + e + " " + f + rest;
    assert a + " " + b + " " + c + " [" + d + " " + e + " " + f + rest == a + " " + b + " " + c + " [" + tail;
    assert a + " " + b + " " + c + " [" + tail == a + (" " + (b + (" " + (c + (" " + ("[" + tail))))));
  }

  /** The text of a hop and what follows it: the address, and then t. */
  lemma HopTextIs(w: Writer, s: Server, rest: string) returns (t: string)
    ensures t == KeysText(w, s.keys, true) + (" " + (w(s.password) + (" " + (w(s.passphrase) + rest))))
    ensures HopText(w, s) + rest == w(s.user) + (" " + (w(s.host) + (" " + (Number(s.port) + (" " + ("[" + t))))))
  {
    t := KeysText(w, s.keys, true) + (" " + (w(s.password) + (" " + (w(s.passphrase) + rest))));
    RegroupEnd(KeysText(w, s.keys, true), w(s.password), w(s.passphrase), rest);
    RegroupStart(w(s.user), w(s.host), Number(s.port), KeysText(w, s.keys, true), w(s.password), w(s.passphrase), rest);
  }

  lemma HopReadsBack(q: Reader, w: Writer, s: Server, rest: string)
    requires Undoes(q, w)
    ensures ReadHop(q, HopText(w, s) + rest) == Some(Read(HopPartsOf(s), rest))
  {
    var t := HopTextIs(w, s, rest);
    AddressReadsBack(q, w, HopPartsOf(s), Number(s.port) + (" " + ("[" + t)), t);
    SecretsReadBack(q, w, HopParts(s.user, s.host, s.port, [], "", ""), s.keys, s.password, s.passphrase, rest);
  }

  lemma HopsStep(q: Reader, t: string, h: HopParts, rest: string)
    requires Shrinks(q) && ReadHop(q, t) == Some(Read(h, rest))
    ensures ReadHops(q, " | " + t) == match ReadHops(q, rest) case Some(hs) => Some([h] + hs) case None => None
  {
    Expected(" | ", t);
  }

  lemma ChainTextIs(w: Writer, chain: seq<Server>, rest: string)
    requires chain != [] && rest == ChainText(w, chain[1..])
    ensures ChainText(w, chain) == " | " + (HopText(w, chain[0]) + rest)
  {
    var hop := HopText(w, chain[0]);
    assert " | " + hop + rest == " | " + (hop + rest);
  }

  lemma HopsPartsAre(chain: seq<Server>)
    requires chain != []
    ensures HopsPartsOf(chain) == [HopPartsOf(chain[0])] + HopsPartsOf(chain[1..])
  {
  }

  lemma {:induction false} HopsReadBack(q: Reader, w: Writer, chain: seq<Server>)
    requires Undoes(q, w)
    ensures ReadHops(q, ChainText(w, chain)) == Some(HopsPartsOf(chain))
    decreases |chain|
  {
    if chain != [] {
      var rest := ChainText(w, chain[1..]);
      ChainTextIs(w, chain, rest);
      HopReadsBack(q, w, chain[0], rest);
      HopsStep(q, HopText(w, chain[0]) + rest, HopPartsOf(chain[0]), rest);
      HopsReadBack(q, w, chain[1..]);
      HopsPartsAre(chain);
    }
  }

  lemma ProxyFromFields(q: Reader, s: string, t1: string, t2: string, t3: string, parts: Parts)
    requires Shrinks(q) && ReadField(q, s) == Some(Read(parts.listen, t1))
             && ReadField(q, t1) == Some(Read(parts.user, t2))
    requires q(t2) == Some(Read(parts.pass, t3)) && ReadHops(q, t3) == Some(parts.hops)
    ensures ReadProxy(q, s) == Some(parts)
  {
  }

  lemma ProxyTextIs(w: Writer, p: Proxy) returns (t1: string, t2: string, t3: string)
    ensures ProxyText(w, p) == w(p.listen) + (" " + t1)
    ensures t1 == w(p.user) + (" " + t2) && t2 == w(p.pass) + t3 && t3 == ChainText(w, p.chain)
  {
    t3 := ChainText(w, p.chain);
    t2 := w(p.pass) + t3;
    t1 := w(p.user) + (" " + t2);
    RegroupHead(w(p.listen), w(p.user), w(p.pass), t3);
  }

  lemma RegroupHead(a: string, b: string, c: string, rest: string)
    ensures a + " " + b + " " + c + rest == a + (" " + (b + (" " + (c + rest))))
  {
  }

  lemma ProxyReadsBack(q: Reader, w: Writer, p: Proxy, s: string)
    requires Undoes(q, w) && s == ProxyText(w, p)
    ensures ReadProxy(q, s) == Some(PartsOf(p))
  {
    var t1, t2, t3 := ProxyTextIs(w, p);
    FieldReadsBack(q, w, p.listen, t1);
    FieldReadsBack(q, w, p.user, t2);
    assert ReadsBack(q, w, p.pass, t3);
    HopsReadBack(q, w, p.chain);
    ProxyFromFields(q, s, t1, t2, t3, PartsOf(p));
  }

  /** A fingerprint can be read: it determines everything about the proxy except the server names. */
  lemma FingerprintReadsBack(isPrint: IsPrint, p: Proxy)
    ensures ReadFingerprint(FingerprintOf(isPrint, p)) == Some(PartsOf(p))
  {
    var w, q := (v: string) => Quoted(isPrint, v), (t: string) => ReadQuoted(t);
    forall v, rest ensures ReadsBack(q, w, v, rest) { QuotedReadsBack(isPrint, v, rest); }
    assert Undoes(q, w);
    ProxyReadsBack(q, w, p, ProxyText(w, p));
  }

  lemma {:induction false} SameChainText(w: Writer, a: seq<Server>, b: seq<Server>)
    requires HopsPartsOf(a) == HopsPartsOf(b)
    ensures ChainText(w, a) == ChainText(w, b)
    decreases |a|
  {
    assert |a| == |HopsPartsOf(b)|;
    if a != [] {
      assert HopPartsOf(a[0]) == HopsPartsOf(b)[0];
      assert HopsPartsOf(a[1..]) == HopsPartsOf(a)[1..] && HopsPartsOf(b[1..]) == HopsPartsOf(b)[1..];
      SameChainText(w, a[1..], b[1..]);
    }
  }

  /** Two proxies have the same fingerprint exactly when they agree in everything but the names of their servers. */
  lemma FingerprintsAgree(isPrint: IsPrint, p: Proxy, q: Proxy)
    ensures FingerprintOf(isPrint, p) == FingerprintOf(isPrint, q) <==> PartsOf(p) == PartsOf(q)
  {
    FingerprintReadsBack(isPrint, p);
    FingerprintReadsBack(isPrint, q);
    if PartsOf(p) == PartsOf(q) { SameChainText((v: string) => Quoted(isPrint, v), p.chain, q.chain); }
  }
}
