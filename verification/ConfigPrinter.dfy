/** Printing one line of the configuration: quoting, spacing and comments, and reading them back. */
module ConfigPrinter {
  import opened Basics
  import opened Text
  import opened ConfigModel

  // ---------------------------------------------------------------- quoting

  function Other(q: char): char {
    if q == '"' then '\'' else '"'
  }

  /** v in quotes of kind q up to the first q inside it, then the rest in the other kind, and so on. */
  function Quoted(v: string, q: char): string
    decreases |v|, if v != "" && v[0] == q then 1 else 0
  {
    var i := Find(v, q);
    FindIsFirst(v, q);
    [q] + v[..i] + [q] + if i == |v| then "" else Quoted(v[i..], Other(q))
  }

  function Quote(v: string): string {
    Quoted(v, '"')
  }

  lemma {:induction false} ReadsInsideQuotes(t: string, q: char, rest: string, cur: string)
    requires q !in t
    ensures WordsFrom(t + [q] + rest, cur, Some(q), true) == WordsFrom(rest, cur + t, None, true)
    decreases |t|
  {
    var s := t + [q] + rest;
    if t == "" {
      assert s[0] == q && s[1..] == rest && cur + t == cur;
    } else {
      assert s[0] == t[0] && s[1..] == t[1..] + [q] + rest;
      ReadsInsideQuotes(t[1..], q, rest, cur + [t[0]]);
      assert cur + [t[0]] + t[1..] == cur + t;
    }
  }

  lemma ReadsOneQuote(t: string, q: char, rest: string, cur: string, inWord: bool)
    requires q !in t && IsQuote(q)
    ensures WordsFrom([q] + t + [q] + rest, cur, None, inWord) == WordsFrom(rest, cur + t, None, true)
  {
    var s := [q] + t + [q] + rest;
    assert s[0] == q && s[1..] == t + [q] + rest;
    ReadsInsideQuotes(t, q, rest, cur);
  }

  /** A quoted text is one quoted stretch t, and the quoted remainder if there is one. */
  lemma QuotedParts(v: string, q: char) returns (t: string, left: string, more: string)
    requires IsQuote(q)
    ensures v == t + left && q !in t
    ensures Quoted(v, q) == [q] + t + [q] + more
    ensures left == "" ==> more == ""
    ensures left != "" ==>
      more == Quoted(left, Other(q)) && left[0] == q && |left| <= |v| && (|left| == |v| ==> left == v)
  {
    var i := Find(v, q);
    FindIsFirst(v, q);
    t, left := v[..i], v[i..];
    more := if left == "" then "" else Quoted(left, Other(q));
  }

  lemma ReadsQuoteAndMore(t: string, q: char, more: string, rest: string, cur: string, inWord: bool,
                          r: Result<seq<string>, Problem>)
    requires q !in t && IsQuote(q)
    requires WordsFrom(more + rest, cur + t, None, true) == r
    ensures WordsFrom([q] + t + [q] + more + rest, cur, None, inWord) == r
  {
    assert [q] + t + [q] + more + rest == [q] + t + [q] + (more + rest);
    ReadsOneQuote(t, q, more + rest, cur, inWord);
  }

  /** splitWords takes the quotes off again. */
  lemma {:induction false} ReadsQuoted(v: string, q: char, rest: string, cur: string, inWord: bool,
                                       r: Result<seq<string>, Problem>)
    requires IsQuote(q) && r == WordsFrom(rest, cur + v, None, true)
    ensures WordsFrom(Quoted(v, q) + rest, cur, None, inWord) == r
    decreases |v|, if v != "" && v[0] == q then 1 else 0
  {
    var t, left, more := QuotedParts(v, q);
    if left == "" {
      assert more + rest == rest && t == v;
    } else {
      assert cur + v == cur + t + left;
      ReadsQuoted(left, Other(q), rest, cur + t, true, r);
    }
    ReadsQuoteAndMore(t, q, more, rest, cur, inWord, r);
  }

  lemma {:induction false} KeepsInsideQuotes(t: string, q: char, rest: string, prevSpace: bool)
    requires q !in t && IsQuote(q)
    ensures Uncommented(t + [q] + rest, Some(q), prevSpace) == t + [q] + Uncommented(rest, None, false)
    decreases |t|
  {
    var s := t + [q] + rest;
    if t == "" {
      assert s[0] == q && s[1..] == rest;
    } else {
      assert s[0] == t[0] && s[1..] == t[1..] + [q] + rest;
      KeepsInsideQuotes(t[1..], q, rest, IsSpace(t[0]));
      assert [t[0]] + (t[1..] + [q] + Uncommented(rest, None, false)) == t + [q] + Uncommented(rest, None, false);
    }
  }

  lemma KeepsOneQuote(t: string, q: char, rest: string, prevSpace: bool)
    requires q !in t && IsQuote(q)
    ensures Uncommented([q] + t + [q] + rest, None, prevSpace) == [q] + t + [q] + Uncommented(rest, None, false)
  {
    var s := [q] + t + [q] + rest;
    assert s[0] == q && s[1..] == t + [q] + rest;
    KeepsInsideQuotes(t, q, rest, false);
    assert [q] + (t + [q] + Uncommented(rest, None, false)) == [q] + t + [q] + Uncommented(rest, None, false);
  }

  lemma KeepsQuoteAndMore(t: string, q: char, more: string, rest: string, prevSpace: bool, end: string)
    requires q !in t && IsQuote(q)
    requires Uncommented(more + rest, None, false) == more + end
    ensures Uncommented([q] + t + [q] + more + rest, None, prevSpace) == [q] + t + [q] + more + end
  {
    assert [q] + t + [q] + more + rest == [q] + t + [q] + (more + rest);
    KeepsOneQuote(t, q, more + rest, prevSpace);
    assert [q] + t + [q] + (more + end) == [q] + t + [q] + more + end;
  }

  /** No comment starts inside a quoted word. */
  lemma {:induction false} KeepsQuoted(v: string, q: char, rest: string, prevSpace: bool)
    requires IsQuote(q)
    ensures Uncommented(Quoted(v, q) + rest, None, prevSpace) == Quoted(v, q) + Uncommented(rest, None, false)
    decreases |v|, if v != "" && v[0] == q then 1 else 0
  {
    var t, left, more := QuotedParts(v, q);
    var u := Uncommented(rest, None, false);
    if left == "" {
      assert more + rest == rest && more + u == u;
    } else {
      KeepsQuoted(left, Other(q), rest, false);
    }
    KeepsQuoteAndMore(t, q, more, rest, prevSpace, u);
  }

  lemma {:induction false} QuotedShape(v: string, q: char)
    requires IsQuote(q)
    ensures |Quoted(v, q)| >= 2 && IsQuote(Quoted(v, q)[0]) && IsQuote(Last(Quoted(v, q)))
    ensures '\n' !in v ==> '\n' !in Quoted(v, q)
    decreases |v|, if v != "" && v[0] == q then 1 else 0
  {
    var t, left, more := QuotedParts(v, q);
    if left != "" { QuotedShape(left, Other(q)); }
  }

  // ---------------------------------------------------------------- words

  /** Space that stays on its line. */
  predicate Blank(s: string) {
    forall i :: 0 <= i < |s| ==> IsSpace(s[i]) && s[i] != '\n'
  }

  function PrintWords(words: seq<string>, gap: string): string {
    if words == [] then ""
    else if |words| == 1 then Quote(words[0])
    else Quote(words[0]) + gap + PrintWords(words[1..], gap)
  }

  lemma {:induction false} SkipsBlank(sp: string, rest: string)
    requires Blank(sp)
    ensures WordsFrom(sp + rest, "", None, false) == WordsFrom(rest, "", None, false)
    decreases |sp|
  {
    if sp == "" {
      assert sp + rest == rest;
    } else {
      assert (sp + rest)[0] == sp[0] && (sp + rest)[1..] == sp[1..] + rest;
      SkipsBlank(sp[1..], rest);
      var r := WordsFrom(rest, "", None, false);
      if r.Ok? { assert [] + r.value == r.value; }
    }
  }

  lemma EndsWord(sp: string, rest: string, cur: string)
    requires Blank(sp) && sp != ""
    ensures WordsFrom(sp + rest, cur, None, true)
            == var r := WordsFrom(rest, "", None, false); if r.Ok? then Ok([cur] + r.value) else r
  {
    assert (sp + rest)[0] == sp[0] && (sp + rest)[1..] == sp[1..] + rest;
    SkipsBlank(sp[1..], rest);
  }

  lemma ReadsFirstWord(w: string, gap: string, rest: string)
    requires Blank(gap) && gap != ""
    ensures WordsFrom(Quote(w) + gap + rest, "", None, false)
            == var r := WordsFrom(rest, "", None, false); if r.Ok? then Ok([w] + r.value) else r
  {
    assert Quote(w) + gap + rest == Quote(w) + (gap + rest);
    assert "" + w == w;
    ReadsQuoted(w, '"', gap + rest, "", false, WordsFrom(gap + rest, w, None, true));
    EndsWord(gap, rest, w);
  }

  /** splitWords undoes PrintWords, whatever the words contain. */
  lemma {:induction false} WordsReadBack(words: seq<string>, gap: string)
    requires Blank(gap) && gap != ""
    ensures SplitWords(PrintWords(words, gap)) == Ok(words)
    decreases |words|
  {
    if |words| == 1 {
      assert Quote(words[0]) + "" == Quote(words[0]) && "" + words[0] == words[0];
      assert [words[0]] == words;
      ReadsQuoted(words[0], '"', "", "", false, Ok(words));
    } else if |words| > 1 {
      WordsReadBack(words[1..], gap);
      ReadsFirstWord(words[0], gap, PrintWords(words[1..], gap));
      assert [words[0]] + words[1..] == words;
    }
  }

  lemma {:induction false} KeepsBlank(sp: string, rest: string, prevSpace: bool)
    requires Blank(sp)
    ensures Uncommented(sp + rest, None, prevSpace)
            == sp + Uncommented(rest, None, if sp == "" then prevSpace else true)
    decreases |sp|
  {
    if sp == "" {
      assert sp + rest == rest && sp + Uncommented(rest, None, prevSpace) == Uncommented(rest, None, prevSpace);
    } else {
      assert (sp + rest)[0] == sp[0] && (sp + rest)[1..] == sp[1..] + rest;
      KeepsBlank(sp[1..], rest, true);
      assert [sp[0]] + (sp[1..] + Uncommented(rest, None, true)) == sp + Uncommented(rest, None, true);
    }
  }

  lemma KeepsFirstWord(w: string, gap: string, rest: string, prevSpace: bool)
    requires Blank(gap)
    ensures Uncommented(Quote(w) + gap + rest, None, prevSpace) == Quote(w) + gap + Uncommented(rest, None, gap != "")
  {
    assert Quote(w) + gap + rest == Quote(w) + (gap + rest);
    KeepsQuoted(w, '"', gap + rest, prevSpace);
    KeepsBlank(gap, rest, false);
    var u := Uncommented(rest, None, gap != "");
    assert Quote(w) + (gap + u) == Quote(w) + gap + u;
  }

  lemma {:induction false} KeepsWords(words: seq<string>, gap: string, rest: string, prevSpace: bool)
    requires Blank(gap) && words != []
    ensures Uncommented(PrintWords(words, gap) + rest, None, prevSpace)
            == PrintWords(words, gap) + Uncommented(rest, None, false)
    decreases |words|
  {
    if |words| == 1 {
      KeepsQuoted(words[0], '"', rest, prevSpace);
    } else {
      var first, tail, u := Quote(words[0]) + gap, PrintWords(words[1..], gap), Uncommented(rest, None, false);
      KeepsFirstWord(words[0], gap, tail + rest, prevSpace);
      KeepsWords(words[1..], gap, rest, gap != "");
      assert first + tail + rest == first + (tail + rest);
      assert first + (tail + u) == first + tail + u;
    }
  }

  lemma {:induction false} WordsShape(words: seq<string>, gap: string)
    requires words != []
    ensures var s := PrintWords(words, gap); s != "" && IsQuote(s[0]) && IsQuote(Last(s))
    decreases |words|
  {
    QuotedShape(words[0], '"');
    if |words| > 1 { WordsShape(words[1..], gap); }
  }

  lemma {:induction false} WordsAreOneLine(words: seq<string>, gap: string)
    requires Blank(gap) && forall i :: 0 <= i < |words| ==> '\n' !in words[i]
    ensures '\n' !in PrintWords(words, gap)
    decreases |words|
  {
    if words != [] {
      QuotedShape(words[0], '"');
      assert '\n' !in gap;
      WordsAreOneLine(words[1..], gap);
    }
  }

  // ---------------------------------------------------------------- entries

  /** How one line is spaced and commented. */
  datatype Layout = Layout(left: string, beforeEq: string, afterEq: string, gap: string, right: string,
                           comment: Option<string>)

  predicate LayoutOk(l: Layout) {
    && Blank(l.left) && Blank(l.beforeEq) && Blank(l.afterEq) && Blank(l.gap) && l.gap != "" && Blank(l.right)
    && (l.comment.Some? ==> l.right != "" && '\n' !in l.comment.value)
  }

  /** A key that can be written as it is. */
  predicate KeyOk(key: string) {
    && key != "" && key[0] != '#' && key[0] != ';'
    && forall i :: 0 <= i < |key| ==> !IsSpace(key[i]) && !IsQuote(key[i]) && key[i] != '='
  }

  function Ending(l: Layout): string {
    l.right + if l.comment.Some? then "#" + l.comment.value else ""
  }

  /** The part of the line before the words. */
  function Head(key: string, l: Layout): string {
    l.left + (key + l.beforeEq + "=" + l.afterEq)
  }

  /** A line with its value already written. */
  function EntryText(key: string, value: string, l: Layout): string {
    Head(key, l) + value + Ending(l)
  }

  /** key = "word" "word" ... # comment */
  function PrintEntry(key: string, words: seq<string>, l: Layout): string {
    EntryText(key, PrintWords(words, l.gap), l)
  }

  lemma EndingIsDropped(l: Layout)
    requires LayoutOk(l)
    ensures Uncommented(Ending(l), None, false) == l.right
  {
    var c := if l.comment.Some? then "#" + l.comment.value else "";
    KeepsBlank(l.right, c, false);
    assert Uncommented(c, None, l.right != "") == "";
    assert l.right + "" == l.right;
  }

  /** A stretch without quotes in which no `#` follows a space or starts it. */
  predicate Unquoted(t: string) {
    forall i :: 0 <= i < |t| ==> !IsQuote(t[i]) && (t[i] == '#' ==> i > 0 && !IsSpace(t[i - 1]))
  }

  predicate SpaceBefore(t: string, k: nat)
    requires k <= |t|
  {
    k > 0 && IsSpace(t[k - 1])
  }

  lemma KeepsOneUnquoted(s: string, c: char, rest: string, prevSpace: bool, kept: string)
    requires s == [c] + rest && !IsQuote(c) && (c == '#' ==> !prevSpace)
    requires Uncommented(rest, None, IsSpace(c)) == kept
    ensures Uncommented(s, None, prevSpace) == [c] + kept
  {
    assert s[0] == c && s[1..] == rest;
  }

  lemma {:induction false} KeepsUnquoted(t: string, k: nat, rest: string)
    requires Unquoted(t) && k <= |t|
    ensures Uncommented(t[k..] + rest, None, SpaceBefore(t, k)) == t[k..] + Uncommented(rest, None, SpaceBefore(t, |t|))
    decreases |t| - k
  {
    var u := Uncommented(rest, None, SpaceBefore(t, |t|));
    if k == |t| {
      assert t[k..] + rest == rest && t[k..] + u == u;
    } else {
      KeepsUnquoted(t, k + 1, rest);
      assert t[k..] + rest == [t[k]] + (t[k + 1..] + rest);
      KeepsOneUnquoted(t[k..] + rest, t[k], t[k + 1..] + rest, SpaceBefore(t, k), t[k + 1..] + u);
      assert [t[k]] + (t[k + 1..] + u) == t[k..] + u;
    }
  }

  lemma HeadIsUnquoted(key: string, l: Layout)
    requires KeyOk(key) && LayoutOk(l)
    ensures Unquoted(Head(key, l))
  {
    var h := Head(key, l);
    forall i | 0 <= i < |h| ensures !IsQuote(h[i]) && (h[i] == '#' ==> i > 0 && !IsSpace(h[i - 1])) {
      if |l.left| <= i < |l.left| + |key| {
        assert h[i] == key[i - |l.left|];
        if i > |l.left| { assert h[i - 1] == key[i - 1 - |l.left|]; }
      }
    }
  }

  predicate KeptBefore(value: string, e: string, prevSpace: bool) {
    Uncommented(value + e, None, prevSpace) == value + Uncommented(e, None, false)
  }

  /** A value with quotes at both ends in which no comment starts. */
  ghost predicate ValueOk(value: string) {
    && value != "" && IsQuote(value[0]) && IsQuote(Last(value))
    && forall e, prevSpace :: KeptBefore(value, e, prevSpace)
  }

  lemma WordsAreValue(words: seq<string>, gap: string)
    requires Blank(gap) && words != []
    ensures ValueOk(PrintWords(words, gap))
  {
    WordsShape(words, gap);
    forall e, prevSpace
      ensures KeptBefore(PrintWords(words, gap), e, prevSpace) { KeepsWords(words, gap, e, prevSpace); }
  }

  /** Scanning a line keeps everything before the comment. */
  lemma LineUncommented(key: string, w: string, l: Layout)
    requires KeyOk(key) && LayoutOk(l) && ValueOk(w)
    ensures Uncommented(EntryText(key, w, l), None, false) == Head(key, l) + w + l.right
  {
    var h, e := Head(key, l), Ending(l);
    HeadIsUnquoted(key, l);
    KeepsUnquoted(h, 0, w + e);
    assert h[0..] == h && EntryText(key, w, l) == h + (w + e);
    assert KeptBefore(w, e, SpaceBefore(h, |h|));
    EndingIsDropped(l);
    assert h + (w + l.right) == h + w + l.right;
  }

  /** Trimming a line that starts with blanks and then c leaves c first. */
  lemma TrimmedStart(left: string, c: char, rest: string)
    requires AllSpace(left) && !IsSpace(c)
    ensures TrimSpace(left + [c] + rest) != "" && TrimSpace(left + [c] + rest)[0] == c
  {
    var t := left + [c] + rest;
    var m := TrimLeft(t);
    TrimLeftIs(t);
    assert t[|left|] == c;
    assert m == [c] + rest;
    var r := TrimRight(m);
    TrimRightIs(m);
    assert m[0] == c;
  }

  lemma LineStripped(key: string, w: string, l: Layout)
    requires KeyOk(key) && LayoutOk(l) && ValueOk(w)
    ensures StripComment(EntryText(key, w, l)) == Head(key, l) + w + l.right
  {
    var s := EntryText(key, w, l);
    var rest := key[1..] + l.beforeEq + "=" + l.afterEq + w + Ending(l);
    assert s == l.left + [key[0]] + rest;
    TrimmedStart(l.left, key[0], rest);
    LineUncommented(key, w, l);
  }

  /** What is left of the line is key, `=` and the value. */
  function Bare(key: string, w: string, l: Layout): string {
    key + l.beforeEq + "=" + l.afterEq + w
  }

  lemma QuoteIsNotSpace(c: char)
    requires IsQuote(c)
    ensures !IsSpace(c) && c != ']'
  {
  }

  /** The bare line begins with its key and ends with a quote. */
  lemma BareShape(key: string, w: string, l: Layout)
    requires KeyOk(key) && LayoutOk(l) && w != "" && IsQuote(Last(w))
    ensures var b := Bare(key, w, l); b != "" && Trimmed(b) && !IsSection(b)
  {
    var b := Bare(key, w, l);
    QuoteIsNotSpace(Last(w));
    assert Last(b) == Last(w) && b[0] == key[0];
    assert b[|b| - 1..] == [Last(b)];
  }

  lemma LineTrimmed(key: string, w: string, l: Layout)
    requires KeyOk(key) && LayoutOk(l) && ValueOk(w)
    ensures var b := Bare(key, w, l); TrimSpace(StripComment(EntryText(key, w, l))) == b && b != "" && !IsSection(b)
  {
    LineStripped(key, w, l);
    BareShape(key, w, l);
    var b := Bare(key, w, l);
    assert Head(key, l) + w + l.right == l.left + b + l.right;
    TrimsTo(l.left, b, l.right);
  }

  lemma LineCut(key: string, w: string, l: Layout, words: seq<string>)
    requires KeyOk(key) && LayoutOk(l) && w != "" && IsQuote(w[0]) && IsQuote(Last(w)) && SplitWords(w) == Ok(words)
    ensures CutEntry(Bare(key, w, l)) == Ok(Entry(key, words))
  {
    var a, b := key + l.beforeEq, l.afterEq + w;
    assert '=' !in a;
    assert Bare(key, w, l) == a + ['='] + b;
    FindAppend(a, '=', b);
    TrimsTo("", key, l.beforeEq);
    assert "" + key + l.beforeEq == a;
    QuoteIsNotSpace(w[0]);
    QuoteIsNotSpace(Last(w));
    TrimsTo(l.afterEq, w, "");
    assert l.afterEq + w + "" == b;
  }

  /**
   * A printed entry reads back as its key and words, whatever the words contain and however the line is
   * spaced and commented.
   */
  lemma EntryReadsBack(isIP: IsIP, st: Reader, n: nat, key: string, words: seq<string>, l: Layout)
    requires KeyOk(key) && LayoutOk(l) && words != []
    ensures ContentLine(isIP, st, n, TrimSpace(StripComment(PrintEntry(key, words, l))))
            == EntryLine(isIP, st, n, key, words)
  {
    var w := PrintWords(words, l.gap);
    WordsAreValue(words, l.gap);
    WordsReadBack(words, l.gap);
    LineTrimmed(key, w, l);
    LineCut(key, w, l, words);
  }

  lemma EntryIsOneLine(key: string, words: seq<string>, l: Layout)
    requires KeyOk(key) && LayoutOk(l) && words != []
    requires forall w :: w in words ==> '\n' !in w
    ensures '\n' !in PrintEntry(key, words, l)
  {
    WordsAreOneLine(words, l.gap);
    assert '\n' !in l.left && '\n' !in l.beforeEq && '\n' !in l.afterEq && '\n' !in l.right;
    assert '\n' !in key by { assert IsSpace('\n'); }
  }
}
