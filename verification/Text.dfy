/** Text as the kernel sees it: runes, whitespace, fields, case mapping and the
    UTF-8 bytes that reach a hash.  Strings are sequences of runes; strings that
    are not valid UTF-8 are not modelled. */
module Text {

  type Byte = b: int | 0 <= b < 256

  /** The case mappings above U+007F come from Unicode tables, which stay
      parameters; the ASCII half is written out below. */
  datatype CaseTables = CaseTables(upper: char -> char, lower: char -> char)

  // ---- whitespace ------------------------------------------------------------

  /** unicode.IsSpace. */
  predicate IsSpace(c: char) {
    var n := c as int;
    || 9 <= n <= 13 || n == 0x20 || n == 0x85 || n == 0xA0 || n == 0x1680
    || 0x2000 <= n <= 0x200A || n == 0x2028 || n == 0x2029
    || n == 0x202F || n == 0x205F || n == 0x3000
  }

  predicate NoSpace(s: string) {
    forall i :: 0 <= i < |s| ==> !IsSpace(s[i])
  }

  /** s == strings.TrimSpace(s) for a non-empty s. */
  predicate Unpadded(s: string) {
    s != "" && !IsSpace(s[0]) && !IsSpace(s[|s| - 1])
  }

  /** strings.TrimSpace(s) == "". */
  predicate Blank(s: string) {
    forall i :: 0 <= i < |s| ==> IsSpace(s[i])
  }

  /** The length of the leading run of whitespace. */
  function SpaceRun(s: string): (n: nat)
    ensures n <= |s| && Blank(s[..n])
    ensures n < |s| ==> !IsSpace(s[n])
  {
    if s == "" || !IsSpace(s[0]) then 0 else 1 + SpaceRun(s[1..])
  }

  /** The length of the leading run of non-whitespace. */
  function WordRun(s: string): (n: nat)
    ensures n <= |s| && NoSpace(s[..n])
    ensures n < |s| ==> IsSpace(s[n])
  {
    if s == "" || IsSpace(s[0]) then 0 else 1 + WordRun(s[1..])
  }

  function TrimLeft(s: string): string {
    s[SpaceRun(s)..]
  }

  /** strings.Fields. */
  function Fields(s: string): (fs: seq<string>)
    ensures forall i :: 0 <= i < |fs| ==> fs[i] != "" && NoSpace(fs[i])
    decreases |s|
  {
    var t := TrimLeft(s);
    if t == "" then []
    else
      var n := WordRun(t);
      [t[..n]] + Fields(t[n..])
  }

  /** strings.Join(fs, " "). */
  function Join(fs: seq<string>): string {
    if |fs| == 0 then "" else if |fs| == 1 then fs[0] else fs[0] + " " + Join(fs[1..])
  }

  /** Runs of whitespace become one space, and the ends are trimmed. */
  function Collapse(s: string): string {
    Join(Fields(s))
  }

  // ---- case ------------------------------------------------------------------

  function UpperRune(tables: CaseTables, c: char): char {
    if 'a' <= c <= 'z' then c - ('a' - 'A') else if c < 128 as char then c else tables.upper(c)
  }

  function LowerRune(tables: CaseTables, c: char): char {
    if 'A' <= c <= 'Z' then c + ('a' - 'A') else if c < 128 as char then c else tables.lower(c)
  }

  /** strings.ToUpper and strings.ToLower map rune by rune. */
  function ToUpper(tables: CaseTables, s: string): (r: string)
    ensures |r| == |s|
  {
    seq(|s|, i requires 0 <= i < |s| => UpperRune(tables, s[i]))
  }

  function ToLower(tables: CaseTables, s: string): (r: string)
    ensures |r| == |s|
  {
    seq(|s|, i requires 0 <= i < |s| => LowerRune(tables, s[i]))
  }

  lemma UpperConcat(tables: CaseTables, a: string, b: string)
    ensures ToUpper(tables, a + b) == ToUpper(tables, a) + ToUpper(tables, b)
  {
  }

  // ---- how a collapse treats "scheme:value" ----------------------------------

  /** What a value contributes to the right of the colon: its collapsed form, with
      one space in front when the value starts with whitespace.  An all-blank value
      contributes nothing. */
  function RightPart(value: string): string {
    if value != "" && IsSpace(value[0]) && Collapse(value) != ""
    then " " + Collapse(value)
    else Collapse(value)
  }

  lemma WordRunOfConcat(w: string, x: string)
    requires NoSpace(w)
    ensures WordRun(w + x) == |w| + WordRun(x)
  {
    if w == "" {
      assert w + x == x;
    } else {
      assert (w + x)[1..] == w[1..] + x;
      WordRunOfConcat(w[1..], x);
    }
  }

  /** Fields of a text that opens with a word. */
  lemma FieldsOfWord(w: string, x: string)
    requires w != "" && NoSpace(w)
    requires x == "" || IsSpace(x[0])
    ensures Fields(w + x) == [w] + Fields(x)
  {
    var t := w + x;
    assert SpaceRun(t) == 0 && TrimLeft(t) == t;
    WordRunOfConcat(w, x);
    assert WordRun(x) == 0;
    assert t[..|w|] == w && t[|w|..] == x;
  }

  lemma FieldsSkipBlank(s: string)
    ensures Fields(s) == Fields(TrimLeft(s))
  {
    assert SpaceRun(TrimLeft(s)) == 0;
    assert TrimLeft(TrimLeft(s)) == TrimLeft(s);
  }

  lemma JoinCons(w: string, fs: seq<string>)
    ensures Join([w] + fs) == if fs == [] then w else w + " " + Join(fs)
  {
    assert ([w] + fs)[1..] == fs;
  }

  lemma JoinNonEmpty(fs: seq<string>)
    requires forall i :: 0 <= i < |fs| ==> fs[i] != ""
    ensures Join(fs) == "" <==> fs == []
  {
  }

  /** A text splits after its first word. */
  lemma WordSplit(v: string)
    ensures var n := WordRun(v);
            && NoSpace(v[..n])
            && (v[n..] == "" || IsSpace(v[n..][0]))
            && v == v[..n] + v[n..]
  {
  }

  lemma NoSpaceConcat(a: string, b: string)
    requires NoSpace(a) && NoSpace(b)
    ensures NoSpace(a + b)
  {
  }

  /** The collapse of a word followed by a break: the word, then the rest. */
  function Continued(w: string, rest: string): string {
    if Fields(rest) == [] then w else w + " " + Collapse(rest)
  }

  lemma ContinuedConcat(head: string, u: string, rest: string)
    ensures Continued(head + u, rest) == head + Continued(u, rest)
  {
  }

  lemma CollapseOfWord(w: string, rest: string)
    requires w != "" && NoSpace(w)
    requires rest == "" || IsSpace(rest[0])
    ensures Collapse(w + rest) == Continued(w, rest)
  {
    FieldsOfWord(w, rest);
    JoinCons(w, Fields(rest));
  }

  lemma RightPartOfWord(u: string, rest: string)
    requires NoSpace(u)
    requires rest == "" || IsSpace(rest[0])
    ensures RightPart(u + rest) == Continued(u, rest)
  {
    hide Join, IsSpace;
    JoinNonEmpty(Fields(rest));
    if u == "" {
      assert u + rest == rest;
    } else {
      assert (u + rest)[0] == u[0];
      CollapseOfWord(u, rest);
    }
  }

  /** One word, a colon, then anything. */
  lemma CollapseOfWordColon(w: string, v: string)
    requires w != "" && NoSpace(w)
    ensures Collapse(w + ":" + v) == w + ":" + RightPart(v)
  {
    hide Fields, Join, Continued, RightPart, Collapse;
    WordSplit(v);
    var u, rest := v[..WordRun(v)], v[WordRun(v)..];
    var head := w + ":";
    NoSpaceConcat(w, ":");
    NoSpaceConcat(head, u);
    CollapseOfWord(head + u, rest);
    RightPartOfWord(u, rest);
    ContinuedConcat(head, u, rest);
    assert head + v == (head + u) + rest;
  }

  /** Peeling the first word off an unpadded text. */
  lemma CollapseAfterWord(w: string, rest: string, x: string)
    requires w != "" && NoSpace(w)
    requires rest != "" && IsSpace(rest[0]) && !IsSpace(rest[|rest| - 1])
    ensures Unpadded(TrimLeft(rest))
    ensures Collapse(w + (rest + x)) == w + " " + Collapse(TrimLeft(rest) + x)
  {
    TrimLeftKeepsEnd(rest);
    CollapseOfWord(w, rest + x);
    TrimLeftOfConcat(rest, x);
    FieldsSkipBlank(rest + x);
    assert TrimLeft(rest + x) != "";
  }

  /** Collapsing "scheme:value" keeps the scheme's own collapse as an exact prefix:
      the boundary is the first colon after it, whatever colons the value holds. */
  lemma {:induction false} CollapseFactors(scheme: string, value: string)
    requires Unpadded(scheme)
    ensures Collapse(scheme + ":" + value) == Collapse(scheme) + ":" + RightPart(value)
    decreases |scheme|
  {
    WordSplit(scheme);
    var n := WordRun(scheme);
    if n == |scheme| {
      CollapseOneWord(scheme);
      CollapseOfWordColon(scheme, value);
    } else {
      CollapseFactorsStep(scheme[..n], scheme[n..], scheme, value);
    }
  }

  lemma CollapseOneWord(w: string)
    requires w != "" && NoSpace(w)
    ensures Collapse(w) == w
  {
    CollapseOfWord(w, "");
    assert w + "" == w;
  }

  lemma {:induction false} CollapseFactorsStep(w: string, rest: string, scheme: string, value: string)
    requires scheme == w + rest && w != "" && NoSpace(w)
    requires rest != "" && IsSpace(rest[0]) && !IsSpace(rest[|rest| - 1])
    ensures Collapse(scheme + ":" + value) == Collapse(scheme) + ":" + RightPart(value)
    decreases |rest|
  {
    var tail, colon := TrimLeft(rest), ":" + value;
    CollapseAfterWord(w, rest, colon);
    CollapseAfterWord(w, rest, "");
    CollapseFactors(tail, value);
    ConcatFacts(w, rest, tail, value);
    Glue(w, Collapse(tail), RightPart(value));
  }

  lemma ConcatFacts(w: string, rest: string, tail: string, value: string)
    ensures w + rest + ":" + value == w + (rest + (":" + value))
    ensures tail + ":" + value == tail + (":" + value)
    ensures rest + "" == rest && tail + "" == tail
  {
  }

  lemma Glue(w: string, c: string, r: string)
    ensures w + " " + (c + ":" + r) == (w + " " + c) + ":" + r
  {
  }

  lemma TrimLeftKeepsEnd(s: string)
    requires s != "" && !IsSpace(s[|s| - 1])
    ensures Unpadded(TrimLeft(s))
  {
    assert s[..SpaceRun(s)] != s;
  }

  lemma TrimLeftOfConcat(s: string, x: string)
    requires s != "" && !IsSpace(s[|s| - 1])
    ensures TrimLeft(s + x) == TrimLeft(s) + x
  {
    if IsSpace(s[0]) {
      assert |s| > 1;
      assert (s + x)[1..] == s[1..] + x;
      TrimLeftOfConcat(s[1..], x);
      assert TrimLeft(s) == TrimLeft(s[1..]);
      assert TrimLeft(s + x) == TrimLeft((s + x)[1..]);
    }
  }

  // ---- what a collapse forgets -----------------------------------------------

  lemma TrimLeftOfBlankTail(v: string, x: string)
    requires Blank(x)
    ensures TrimLeft(v + x) == if Blank(v) then "" else TrimLeft(v) + x
    decreases |v| + |x|
  {
    if v == "" {
      assert v + x == x;
      BlankTrims(x);
    } else if IsSpace(v[0]) {
      assert (v + x)[1..] == v[1..] + x;
      TrimLeftOfBlankTail(v[1..], x);
      assert TrimLeft(v + x) == TrimLeft(v[1..] + x);
      assert TrimLeft(v) == TrimLeft(v[1..]);
      assert Blank(v) <==> Blank(v[1..]);
    }
  }

  lemma BlankTrims(x: string)
    ensures TrimLeft(x) == "" <==> Blank(x)
  {
    if TrimLeft(x) == "" {
      assert x[..|x|] == x;
    }
  }

  /** Trailing whitespace is dropped. */
  lemma {:induction false} FieldsDropTail(v: string, x: string)
    requires Blank(x)
    ensures Fields(v + x) == Fields(v)
    decreases |v|, 0
  {
    BlankTrims(v);
    TrimLeftOfBlankTail(v, x);
    if !Blank(v) {
      FieldsSkipBlank(v);
      FieldsSkipBlank(v + x);
      WordSplit(TrimLeft(v));
      var t, n := TrimLeft(v), WordRun(TrimLeft(v));
      FieldsDropTailStep(t, t[..n], t[n..], x);
    }
  }

  lemma {:induction false} FieldsDropTailStep(t: string, w: string, rest: string, x: string)
    requires t == w + rest && w != "" && NoSpace(w) && Blank(x)
    requires rest == "" || IsSpace(rest[0])
    ensures Fields(t + x) == Fields(t)
    decreases |rest|, 1
  {
    FieldsDropTail(rest, x);
    FieldsExtend(w, rest, x);
    ConcatAssociative(w, rest, x);
  }

  lemma ConcatAssociative(a: string, b: string, c: string)
    ensures (a + b) + c == a + (b + c)
  {
  }

  lemma FieldsExtend(w: string, rest: string, x: string)
    requires w != "" && NoSpace(w) && Blank(x)
    requires rest == "" || IsSpace(rest[0])
    requires Fields(rest + x) == Fields(rest)
    ensures Fields(w + (rest + x)) == Fields(w + rest)
  {
    FieldsOfWord(w, rest + x);
    FieldsOfWord(w, rest);
  }

  /** The right part of a claim drops trailing whitespace and keeps one leading space;
      a value of nothing but whitespace leaves nothing. */
  lemma RightPartEnds(lead: string, v: string, trail: string)
    requires (v == "" || Unpadded(v)) && Blank(lead) && Blank(trail)
    ensures RightPart(lead + v + trail)
         == if v == "" then "" else (if lead == "" then "" else " ") + Collapse(v)
  {
    var whole := lead + v + trail;
    if v == "" {
      assert Blank(whole);
      BlankTrims(whole);
      return;
    }
    FieldsDropTail(lead + v, trail);
    TrimLeftOfLead(lead, v);
    FieldsSkipBlank(lead + v);
    JoinNonEmpty(Fields(v));
    assert Fields(v) != [] && TrimLeft(v) == v;
    assert whole[0] == if lead == "" then v[0] else lead[0];
  }

  lemma TrimLeftOfLead(lead: string, v: string)
    requires Unpadded(v) && Blank(lead)
    ensures TrimLeft(lead + v) == v
  {
    if lead == "" {
      assert lead + v == v;
    } else {
      assert (lead + v)[1..] == lead[1..] + v;
      TrimLeftOfLead(lead[1..], v);
      assert TrimLeft(lead + v) == TrimLeft(lead[1..] + v);
    }
  }

  // ---- what a collapse keeps ---------------------------------------------------

  /** The runes of a text that are not whitespace, in order. */
  function Marks(s: string): string {
    if s == "" then ""
    else Marks(s[..|s| - 1]) + if IsSpace(s[|s| - 1]) then "" else [s[|s| - 1]]
  }

  lemma {:induction false} MarksConcat(a: string, b: string)
    ensures Marks(a + b) == Marks(a) + Marks(b)
  {
    if b == "" {
      assert a + b == a;
    } else {
      var n := |b| - 1;
      MarksConcat(a, b[..n]);
      assert (a + b)[..|a + b| - 1] == a + b[..n];
    }
  }

  /** One rune is kept exactly if it is not whitespace. */
  lemma MarksOfOne(c: char)
    ensures Marks([c]) == if IsSpace(c) then "" else [c]
  {
    assert [c][..0] == "";
  }

  lemma {:induction false} MarksOfPlain(s: string)
    ensures NoSpace(s) ==> Marks(s) == s
    ensures Blank(s) ==> Marks(s) == ""
    ensures NoSpace(Marks(s))
  {
    hide IsSpace;
    if s != "" {
      MarksOfPlain(s[..|s| - 1]);
      assert s == s[..|s| - 1] + [s[|s| - 1]];
    }
  }

  /** Collapsing loses whitespace and nothing else. */
  lemma {:induction false} CollapseKeepsMarks(s: string)
    ensures Marks(Collapse(s)) == Marks(s)
    decreases |s|
  {
    var t := TrimLeft(s);
    assert s == s[..SpaceRun(s)] + t;
    MarksConcat(s[..SpaceRun(s)], t);
    MarksOfPlain(s[..SpaceRun(s)]);
    if t != "" {
      var n := WordRun(t);
      WordSplit(t);
      MarksConcat(t[..n], t[n..]);
      MarksOfPlain(t[..n]);
      CollapseKeepsMarks(t[n..]);
      MarksOfHead(t[..n], Fields(t[n..]));
    }
  }

  lemma MarksOfHead(w: string, fs: seq<string>)
    requires NoSpace(w)
    ensures Marks(Join([w] + fs)) == w + Marks(Join(fs))
  {
    JoinCons(w, fs);
    MarksOfPlain(w);
    if fs != [] {
      MarksConcat(w + " ", Join(fs));
      MarksConcat(w, " ");
      MarksOfOne(' ');
    }
  }

  // ---- what the case mapping does -------------------------------------------------

  /** Upper case takes a..z to A..Z in step and leaves the rest of ASCII alone; lower
      case goes the other way. */
  lemma AsciiCase(tables: CaseTables, k: nat)
    requires k < 128
    ensures UpperRune(tables, k as char) as int == if 97 <= k <= 122 then k - 32 else k
    ensures LowerRune(tables, k as char) as int == if 65 <= k <= 90 then k + 32 else k
  {
  }

  // ---- UTF-8 -----------------------------------------------------------------

  function RuneBytes(c: char): (bs: seq<Byte>)
    ensures 1 <= |bs| <= 4
  {
    var n := c as int;
    var n1 := n / 64;   // each continuation byte carries six bits
    var n2 := n1 / 64;
    if n < 0x80 then [n]
    else if n < 0x800 then [0xC0 + n1, 0x80 + n % 64]
    else if n < 0x10000 then [0xE0 + n2, 0x80 + n1 % 64, 0x80 + n % 64]
    else [0xF0 + n2 / 64, 0x80 + n2 % 64, 0x80 + n1 % 64, 0x80 + n % 64]
  }

  function Concatenate(parts: seq<seq<Byte>>): seq<Byte> {
    if parts == [] then [] else parts[0] + Concatenate(parts[1..])
  }

  function Utf8(s: string): seq<Byte> {
    Concatenate(seq(|s|, i requires 0 <= i < |s| => RuneBytes(s[i])))
  }

  lemma Utf8Cons(s: string)
    requires s != ""
    ensures Utf8(s) == RuneBytes(s[0]) + Utf8(s[1..])
  {
    var parts := seq(|s|, i requires 0 <= i < |s| => RuneBytes(s[i]));
    assert parts[1..] == seq(|s[1..]|, i requires 0 <= i < |s[1..]| => RuneBytes(s[1..][i]));
  }

  /** The code point a rune's bytes denote. */
  function RuneValue(bs: seq<Byte>): int {
    if |bs| == 1 then bs[0]
    else if |bs| == 2 then 64 * (bs[0] as int - 0xC0) + Six(bs[1])
    else if |bs| == 3 then 64 * (64 * (bs[0] as int - 0xE0) + Six(bs[1])) + Six(bs[2])
    else if |bs| == 4 then
      64 * (64 * (64 * (bs[0] as int - 0xF0) + Six(bs[1])) + Six(bs[2])) + Six(bs[3])
    else 0
  }

  function Six(b: int): int {
    b - 0x80
  }

  lemma RuneRoundTrip(c: char)
    ensures RuneValue(RuneBytes(c)) == c as int
  {
  }

  lemma RuneBytesInjective(a: char, b: char)
    requires RuneBytes(a) == RuneBytes(b)
    ensures a == b
  {
    assert RuneValue(RuneBytes(a)) == RuneValue(RuneBytes(b));
    RuneRoundTrip(a);
    RuneRoundTrip(b);
  }

  /** The first byte of a rune fixes how many bytes the rune takes. */
  lemma RuneLength(a: char, b: char)
    requires RuneBytes(a)[0] == RuneBytes(b)[0]
    ensures |RuneBytes(a)| == |RuneBytes(b)|
  {
  }

  lemma RuneBytesPrefixFree(a: char, b: char, x: seq<Byte>, y: seq<Byte>)
    requires RuneBytes(a) + x == RuneBytes(b) + y
    ensures a == b && x == y
  {
    var p, q := RuneBytes(a), RuneBytes(b);
    assert (p + x)[0] == p[0] && (q + y)[0] == q[0];
    RuneLength(a, b);
    assert p == (p + x)[..|p|] && q == (q + y)[..|q|];
    assert x == (p + x)[|p|..] && y == (q + y)[|q|..];
    RuneBytesInjective(a, b);
  }

  lemma {:induction false} Utf8Injective(a: string, b: string)
    requires Utf8(a) == Utf8(b)
    ensures a == b
  {
    if a != "" {
      Utf8Cons(a);
    }
    if b != "" {
      Utf8Cons(b);
    }
    if a != "" && b != "" {
      RuneBytesPrefixFree(a[0], b[0], Utf8(a[1..]), Utf8(b[1..]));
      Utf8Injective(a[1..], b[1..]);
    }
  }

  // ---- byte order ------------------------------------------------------------

  /** Go's `<` on strings: lexicographic on bytes. */
  predicate LexLess(a: seq<Byte>, b: seq<Byte>) {
    b != [] && (a == [] || a[0] < b[0] || (a[0] == b[0] && LexLess(a[1..], b[1..])))
  }

  predicate StringLess(a: string, b: string) {
    LexLess(Utf8(a), Utf8(b))
  }

  lemma LexLessTransitive(a: seq<Byte>, b: seq<Byte>, c: seq<Byte>)
    requires LexLess(a, b) && LexLess(b, c)
    ensures LexLess(a, c)
  {
    if a != [] && a[0] == b[0] == c[0] {
      LexLessTransitive(a[1..], b[1..], c[1..]);
    }
  }

  lemma LexLessTotal(a: seq<Byte>, b: seq<Byte>)
    ensures !(LexLess(a, b) && LexLess(b, a))
    ensures a == b <==> !LexLess(a, b) && !LexLess(b, a)
  {
    if a != [] && b != [] {
      LexLessTotal(a[1..], b[1..]);
      if a[0] == b[0] && a[1..] == b[1..] {
        assert a == [a[0]] + a[1..] && b == [b[0]] + b[1..];
      }
    }
  }

  lemma StringLessTotal(a: string, b: string)
    ensures !(StringLess(a, b) && StringLess(b, a))
    ensures a == b <==> !StringLess(a, b) && !StringLess(b, a)
  {
    LexLessTotal(Utf8(a), Utf8(b));
    if Utf8(a) == Utf8(b) {
      Utf8Injective(a, b);
    }
  }

  // ---- small grammars --------------------------------------------------------

  predicate IsLowerHex(c: char) {
    '0' <= c <= '9' || 'a' <= c <= 'f'
  }

  predicate IsDigit(c: char) {
    '0' <= c <= '9'
  }

  /** The decimal rendering of a sequence number. */
  function Decimal(n: nat): (s: string)
    ensures s != "" && forall i :: 0 <= i < |s| ==> IsDigit(s[i])
  {
    if n < 10 then ['0' + n as char] else Decimal(n / 10) + ['0' + (n % 10) as char]
  }

  lemma {:induction false} DecimalInjective(m: nat, n: nat)
    requires Decimal(m) == Decimal(n)
    ensures m == n
  {
    var a, b := Decimal(m), Decimal(n);
    assert a[|a| - 1] == '0' + (m % 10) as char;
    assert b[|b| - 1] == '0' + (n % 10) as char;
    if m >= 10 && n >= 10 {
      assert a[..|a| - 1] == Decimal(m / 10) && b[..|b| - 1] == Decimal(n / 10);
      DecimalInjective(m / 10, n / 10);
    }
  }

  /** The number a decimal text stands for. */
  function DecimalValue(s: string): int {
    if s == "" then 0 else 10 * DecimalValue(s[..|s| - 1]) + (s[|s| - 1] as int - '0' as int)
  }

  lemma {:induction false} DecimalReads(n: nat)
    ensures DecimalValue(Decimal(n)) == n
  {
    if n >= 10 {
      DecimalReads(n / 10);
      assert Decimal(n)[..|Decimal(n)| - 1] == Decimal(n / 10);
    } else {
      assert Decimal(n)[..0] == "";
    }
  }
}
