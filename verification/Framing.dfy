/** The one canonical encoding of values that will be hashed (kernel/internal/framing). */
module Framing {
  import opened Text

  /** Bytes a Go string can hold: `len` is a non-negative 64-bit int. */
  ghost predicate InMemory(bs: seq<Byte>) {
    |bs| < 0x8000_0000_0000_0000
  }

  function Pow256(k: nat): (p: nat)
    ensures p > 0
  {
    if k == 0 then 1 else 256 * Pow256(k - 1)
  }

  /** The low k bytes of n, most significant first. */
  function BigEndian(n: nat, k: nat): (bs: seq<Byte>)
    ensures |bs| == k
  {
    if k == 0 then [] else BigEndian(n / 256, k - 1) + [n % 256]
  }

  lemma {:induction false} BigEndianInjective(m: nat, n: nat, k: nat)
    requires m < Pow256(k) && n < Pow256(k)
    requires BigEndian(m, k) == BigEndian(n, k)
    ensures m == n
  {
    if k > 0 {
      var a, b := BigEndian(m, k), BigEndian(n, k);
      assert a[k - 1] == m % 256 && b[k - 1] == n % 256;
      assert a[..k - 1] == BigEndian(m / 256, k - 1);
      assert b[..k - 1] == BigEndian(n / 256, k - 1);
      BigEndianInjective(m / 256, n / 256, k - 1);
    }
  }

  lemma LengthFits(n: nat)
    requires n < 0x8000_0000_0000_0000
    ensures n < Pow256(8)
  {
    assert Pow256(2) == 65536;
    assert Pow256(4) == 65536 * 65536;
    assert Pow256(6) == 65536 * 65536 * 65536;
  }

  /** One component: an eight-byte big-endian length, then the bytes.  The length
      is converted to uint64, so only its low 64 bits are written. */
  function Prefixed(s: seq<Byte>): (r: seq<Byte>)
    ensures |r| == 8 + |s|
  {
    BigEndian(|s|, 8) + s
  }

  /** The number a big-endian byte string stands for. */
  function BigEndianValue(bs: seq<Byte>): nat {
    if bs == [] then 0 else 256 * BigEndianValue(bs[..|bs| - 1]) + bs[|bs| - 1]
  }

  /** The prefix of a component reads as its length, most significant byte first. */
  lemma {:induction false} BigEndianReads(n: nat, k: nat)
    requires n < Pow256(k)
    ensures BigEndianValue(BigEndian(n, k)) == n
  {
    if k > 0 {
      BigEndianReads(n / 256, k - 1);
      assert BigEndian(n, k)[..k - 1] == BigEndian(n / 256, k - 1);
    }
  }

  lemma PrefixIsLength(s: seq<Byte>)
    requires InMemory(s)
    ensures Prefixed(s)[8..] == s && BigEndianValue(Prefixed(s)[..8]) == |s|
  {
    LengthFits(|s|);
    BigEndianReads(|s|, 8);
    assert Prefixed(s)[..8] == BigEndian(|s|, 8);
  }

  function PrefixedAll(parts: seq<seq<Byte>>): seq<Byte> {
    if parts == [] then [] else Prefixed(parts[0]) + PrefixedAll(parts[1..])
  }

  /** The value of `Frame(tag, components...)`. */
  function Framed(tag: seq<Byte>, components: seq<seq<Byte>>): seq<Byte> {
    PrefixedAll([tag] + components)
  }

  lemma {:induction false} PrefixedAllSnoc(parts: seq<seq<Byte>>, last: seq<Byte>)
    ensures PrefixedAll(parts + [last]) == PrefixedAll(parts) + Prefixed(last)
  {
    if parts == [] {
      assert parts + [last] == [last];
      assert [last][1..] == [];
    } else {
      assert (parts + [last])[1..] == parts[1..] + [last];
      PrefixedAllSnoc(parts[1..], last);
    }
  }

  /** The builder loop. */
  method Frame(tag: seq<Byte>, components: seq<seq<Byte>>) returns (out: seq<Byte>)
    ensures out == Framed(tag, components)
  {
    out := BigEndian(|tag|, 8) + tag;
    assert PrefixedAll([tag]) == out by {
      PrefixedAllSnoc([], tag);
      assert [] + [tag] == [tag];
    }
    var i := 0;
    assert [tag] + components[..0] == [tag];
    while i < |components|
      invariant 0 <= i <= |components|
      invariant out == PrefixedAll([tag] + components[..i])
    {
      PrefixedAllSnoc([tag] + components[..i], components[i]);
      assert [tag] + components[..i + 1] == [tag] + components[..i] + [components[i]];
      out := out + BigEndian(|components[i]|, 8);
      out := out + components[i];
      i := i + 1;
    }
    assert components[..i] == components;
  }

  lemma PrefixedPrefixFree(a: seq<Byte>, b: seq<Byte>, x: seq<Byte>, y: seq<Byte>)
    requires InMemory(a) && InMemory(b)
    requires Prefixed(a) + x == Prefixed(b) + y
    ensures a == b && x == y
  {
    var p, q := Prefixed(a) + x, Prefixed(b) + y;
    assert p[..8] == BigEndian(|a|, 8) && q[..8] == BigEndian(|b|, 8);
    LengthFits(|a|);
    LengthFits(|b|);
    BigEndianInjective(|a|, |b|, 8);
    assert a == p[8..8 + |a|] && b == q[8..8 + |b|];
    assert x == p[8 + |a|..] && y == q[8 + |b|..];
  }

  lemma {:induction false} PrefixedAllInjective(ps: seq<seq<Byte>>, qs: seq<seq<Byte>>)
    requires InMemory(PrefixedAll(ps))
    requires PrefixedAll(ps) == PrefixedAll(qs)
    ensures ps == qs
  {
    if ps == [] || qs == [] {
    } else {
      PrefixedPrefixFree(ps[0], qs[0], PrefixedAll(ps[1..]), PrefixedAll(qs[1..]));
      PrefixedAllInjective(ps[1..], qs[1..]);
      assert ps == [ps[0]] + ps[1..] && qs == [qs[0]] + qs[1..];
    }
  }

  /** A framed byte string determines its tag and its list of components. */
  lemma FrameInjective(t: seq<Byte>, cs: seq<seq<Byte>>, t': seq<Byte>, cs': seq<seq<Byte>>)
    requires InMemory(Framed(t, cs))
    requires Framed(t, cs) == Framed(t', cs')
    ensures t == t' && cs == cs'
  {
    PrefixedAllInjective([t] + cs, [t'] + cs');
    assert ([t] + cs)[0] == t && ([t'] + cs')[0] == t';
    assert ([t] + cs)[1..] == cs && ([t'] + cs')[1..] == cs';
  }

  /** A framed string that fits in memory has only components that fit. */
  lemma {:induction false} PartsFit(parts: seq<seq<Byte>>, i: nat)
    requires i < |parts| && InMemory(PrefixedAll(parts))
    ensures InMemory(parts[i])
  {
    if i > 0 {
      PartsFit(parts[1..], i - 1);
    }
  }

  lemma ComponentFits(t: seq<Byte>, cs: seq<seq<Byte>>, i: nat)
    requires i < |cs| && InMemory(Framed(t, cs))
    ensures InMemory(cs[i])
  {
    PartsFit([t] + cs, i + 1);
  }

  // ---- text components -----------------------------------------------------------

  function Texts(ts: seq<string>): (cs: seq<seq<Byte>>)
    ensures |cs| == |ts| && forall i :: 0 <= i < |ts| ==> cs[i] == Utf8(ts[i])
  {
    seq(|ts|, i requires 0 <= i < |ts| => Utf8(ts[i]))
  }

  /** A tag and components that are all text. */
  function FramedTexts(tag: string, ts: seq<string>): seq<Byte> {
    Framed(Utf8(tag), Texts(ts))
  }

  lemma TextsInjective(ts: seq<string>, ts': seq<string>)
    requires Texts(ts) == Texts(ts')
    ensures ts == ts'
  {
    forall i | 0 <= i < |ts|
      ensures i < |ts'| && ts[i] == ts'[i]
    {
      assert Texts(ts)[i] == Texts(ts')[i];
      Utf8Injective(ts[i], ts'[i]);
    }
    assert |Texts(ts)| == |Texts(ts')|;
  }

  lemma TextFrameInjective(tag: string, ts: seq<string>, tag': string, ts': seq<string>)
    requires InMemory(FramedTexts(tag, ts))
    requires FramedTexts(tag, ts) == FramedTexts(tag', ts')
    ensures tag == tag' && ts == ts'
  {
    FrameInjective(Utf8(tag), Texts(ts), Utf8(tag'), Texts(ts'));
    Utf8Injective(tag, tag');
    TextsInjective(ts, ts');
  }
}
