/**
 * The opaque key of a scanned entry (`discovery/scan.rs`): the digest of an
 * unambiguous encoding of its root selector and its path components.
 */
module EntryKey {
  import opened Base
  import opened Classify

  /** `u64::to_le_bytes`, one octet at a time; saturated beyond 64 bits. */
  function LittleEndian(n: nat, width: nat): (octets: string)
    ensures |octets| == width
  {
    if width == 0 then "" else [(n % 256) as char] + LittleEndian(n / 256, width - 1)
  }

  function Length(name: string): nat {
    if |name| > U64_MAX then U64_MAX else |name|
  }

  function Encoded(name: string): string {
    LittleEndian(Length(name), 8) + name
  }

  function EncodedPath(path: Path): string
    decreases |path|
  {
    if path == [] then "" else EncodedPath(path[..|path| - 1]) + Encoded(path[|path| - 1])
  }

  const DOMAIN := "quarters-discovery-entry-v1\0"

  function SelectorText(selector: Selector): string {
    match selector case Home => "home" case Runtime => "runtime"
  }

  function PreImage(selector: Selector, path: Path): string {
    DOMAIN + SelectorText(selector) + EncodedPath(path)
  }

  method Key(hash: string -> string, selector: Selector, path: Path) returns (key: string)
    ensures key == hash(PreImage(selector, path))
  {
    var hashed := DOMAIN;
    hashed := hashed + SelectorText(selector);
    for i := 0 to |path|
      invariant hashed == DOMAIN + SelectorText(selector) + EncodedPath(path[..i])
    {
      assert path[..i + 1][..i] == path[..i];
      ghost var prefix := DOMAIN + SelectorText(selector);
      Associate(prefix, EncodedPath(path[..i]), Encoded(path[i]));
      Associate(hashed, LittleEndian(Length(path[i]), 8), path[i]);
      hashed := hashed + LittleEndian(Length(path[i]), 8);
      hashed := hashed + path[i];
    }
    assert path[..|path|] == path;
    key := hash(hashed);
  }

  // -------------------------------------------------------------- injectivity

  lemma {:induction false} LittleEndianInjective(n: nat, m: nat, width: nat)
    requires n < Pow256(width) && m < Pow256(width) && LittleEndian(n, width) == LittleEndian(m, width)
    ensures n == m
  {
    if width > 0 {
      var a, b := LittleEndian(n, width), LittleEndian(m, width);
      assert a[0] == b[0] && a[1..] == LittleEndian(n / 256, width - 1) && b[1..] == LittleEndian(m / 256, width - 1);
      assert n % 256 == m % 256;
      LittleEndianInjective(n / 256, m / 256, width - 1);
    }
  }

  /** The same encoding, read from the front. */
  function FromFront(path: Path): string
    decreases |path|
  {
    if path == [] then "" else Encoded(path[0]) + FromFront(path[1..])
  }

  lemma Associate(a: string, b: string, c: string)
    ensures a + (b + c) == (a + b) + c
  {
  }

  lemma {:induction false} FromFrontSnoc(path: Path, name: string)
    ensures FromFront(path + [name]) == FromFront(path) + Encoded(name)
    decreases |path|
  {
    if path == [] {
      assert (path + [name])[1..] == [];
    } else {
      FromFrontSnoc(path[1..], name);
      assert (path + [name])[1..] == path[1..] + [name];
      Associate(Encoded(path[0]), FromFront(path[1..]), Encoded(name));
    }
  }

  lemma {:induction false} EncodedFromFront(path: Path)
    ensures EncodedPath(path) == FromFront(path)
    decreases |path|
  {
    if path != [] {
      EncodedFromFront(path[..|path| - 1]);
      FromFrontSnoc(path[..|path| - 1], path[|path| - 1]);
      assert path[..|path| - 1] + [path[|path| - 1]] == path;
    }
  }

  /** Names whose length a 64-bit machine can represent. */
  predicate Representable(path: Path) {
    forall i :: 0 <= i < |path| ==> |path[i]| <= U64_MAX
  }

  /** Equal texts that both start with a length-prefixed name start with the same name. */
  lemma FirstNameAgrees(a: string, x: string, b: string, y: string)
    requires |a| <= U64_MAX && |b| <= U64_MAX && Encoded(a) + x == Encoded(b) + y
    ensures a == b && x == y
  {
    var v, w := Encoded(a) + x, Encoded(b) + y;
    assert v[..8] == LittleEndian(|a|, 8) && w[..8] == LittleEndian(|b|, 8);
    assert Pow256(8) == U64_MAX + 1 by {
      assert Pow256(4) == 0x1_0000_0000;
      assert Pow256(8) == 0x1_0000_0000 * 0x1_0000_0000;
    }
    LittleEndianInjective(|a|, |b|, 8);
    assert v[8..8 + |a|] == a && w[8..8 + |b|] == b;
    assert v[8 + |a|..] == x && w[8 + |b|..] == y;
  }

  lemma {:induction false} PathEncodingInjective(p: Path, q: Path)
    requires Representable(p) && Representable(q) && FromFront(p) == FromFront(q)
    ensures p == q
    decreases |p|
  {
    if p != [] && q != [] {
      FirstNameAgrees(p[0], FromFront(p[1..]), q[0], FromFront(q[1..]));
      PathEncodingInjective(p[1..], q[1..]);
      assert p == [p[0]] + p[1..] && q == [q[0]] + q[1..];
    }
  }

  lemma SamePrefix(prefix: string, x: string, y: string)
    requires prefix + x == prefix + y
    ensures x == y
  {
    assert x == (prefix + x)[|prefix|..] && y == (prefix + y)[|prefix|..];
  }

  lemma SelectorsAgree(s: Selector, x: string, t: Selector, y: string)
    requires SelectorText(s) + x == SelectorText(t) + y
    ensures s == t && x == y
  {
    var a, b := SelectorText(s) + x, SelectorText(t) + y;
    assert a[0] == SelectorText(s)[0] && b[0] == SelectorText(t)[0];
    assert a[|SelectorText(s)|..] == x && b[|SelectorText(t)|..] == y;
  }

  /** No two entries, of the same root or of different roots, share a pre-image. */
  lemma PreImageInjective(s: Selector, p: Path, t: Selector, q: Path)
    requires Representable(p) && Representable(q) && PreImage(s, p) == PreImage(t, q)
    ensures s == t && p == q
  {
    var x, y := SelectorText(s) + EncodedPath(p), SelectorText(t) + EncodedPath(q);
    Associate(DOMAIN, SelectorText(s), EncodedPath(p));
    Associate(DOMAIN, SelectorText(t), EncodedPath(q));
    SamePrefix(DOMAIN, x, y);
    SelectorsAgree(s, EncodedPath(p), t, EncodedPath(q));
    EncodedFromFront(p);
    EncodedFromFront(q);
    PathEncodingInjective(p, q);
  }
}
