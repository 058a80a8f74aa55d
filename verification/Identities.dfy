/**
 * The SSH agent's identities answer (`agent/protocol.rs`): a count followed by
 * that many pairs of length-prefixed strings, as in section 5 of RFC 4251 and
 * the "Requesting a list of keys" section of draft-miller-ssh-agent.
 */
module Identities {
  import opened Base

  const U32_LIMIT: nat := 0x1_0000_0000

  datatype Identity = Identity(blob: bytes, comment: bytes)

  // ---------------------------------------------------------------- encoding

  function BigEndian(n: nat, width: nat): (b: bytes)
    ensures |b| == width
  {
    if width == 0 then [] else BigEndian(n / 256, width - 1) + [(n % 256) as byte]
  }

  function FromBigEndian(b: bytes): nat
    decreases |b|
  {
    if b == [] then 0 else 256 * FromBigEndian(b[..|b| - 1]) + b[|b| - 1] as nat
  }

  lemma {:induction false} ReadBack(n: nat, width: nat)
    requires n < Pow256(width)
    ensures FromBigEndian(BigEndian(n, width)) == n
  {
    if width > 0 {
      ReadBack(n / 256, width - 1);
      assert BigEndian(n, width)[..width - 1] == BigEndian(n / 256, width - 1);
    }
  }

  lemma {:induction false} WriteBack(b: bytes)
    ensures BigEndian(FromBigEndian(b), |b|) == b && FromBigEndian(b) < Pow256(|b|)
    decreases |b|
  {
    if b != [] {
      WriteBack(b[..|b| - 1]);
      assert b == b[..|b| - 1] + [b[|b| - 1]];
    }
  }

  function U32(n: nat): (b: bytes)
    requires n < U32_LIMIT
    ensures |b| == 4 && FromU32(b) == n
  {
    assert Pow256(4) == U32_LIMIT;
    ReadBack(n, 4);
    BigEndian(n, 4)
  }

  /** `u32::from_be_bytes`. */
  function FromU32(b: bytes): (n: nat)
    requires |b| == 4
    ensures n < U32_LIMIT
  {
    assert Pow256(4) == U32_LIMIT;
    WriteBack(b);
    FromBigEndian(b)
  }

  lemma U32Injective(b: bytes)
    requires |b| == 4
    ensures U32(FromU32(b)) == b
  {
    WriteBack(b);
  }

  /** The most significant octet comes first. */
  lemma FromU32IsBigEndian(a: byte, b: byte, c: byte, d: byte)
    ensures FromU32([a, b, c, d]) == a as nat * 0x100_0000 + b as nat * 0x1_0000 + c as nat * 0x100 + d as nat
  {
    assert [a, b, c, d][..3] == [a, b, c] && [a, b, c][..2] == [a, b] && [a, b][..1] == [a] && [a][..0] == [];
    assert FromBigEndian([a]) == a as nat;
    assert FromBigEndian([a, b]) == 256 * FromBigEndian([a]) + b as nat;
    assert FromBigEndian([a, b, c]) == 256 * FromBigEndian([a, b]) + c as nat;
  }

  predicate Fits(s: bytes) {
    |s| < U32_LIMIT
  }

  predicate Sendable(ids: seq<Identity>) {
    forall i :: 0 <= i < |ids| ==> Fits(ids[i].blob) && Fits(ids[i].comment)
  }

  function EncodeString(s: bytes): bytes
    requires Fits(s)
  {
    U32(|s|) + s
  }

  function EncodeAll(ids: seq<Identity>): bytes
    requires Sendable(ids)
    decreases |ids|
  {
    if ids == [] then []
    else EncodeString(ids[0].blob) + (EncodeString(ids[0].comment) + EncodeAll(ids[1..]))
  }

  function Encode(ids: seq<Identity>): bytes
    requires Sendable(ids) && |ids| < U32_LIMIT
  {
    U32(|ids|) + EncodeAll(ids)
  }

  // ----------------------------------------------------------------- parsing

  /** A length-prefixed string and what follows it. */
  function SplitString(b: bytes): Option<(bytes, bytes)> {
    if |b| < 4 then None
    else
      var n := FromU32(b[..4]);
      if |b| - 4 < n then None else Some((b[4..4 + n], b[4 + n..]))
  }

  lemma SplitIsEncoding(b: bytes, s: bytes, rest: bytes)
    requires Fits(s)
    ensures SplitString(b) == Some((s, rest)) <==> b == EncodeString(s) + rest
  {
    if b == EncodeString(s) + rest {
      assert b[..4] == U32(|s|);
      assert b[4..4 + |s|] == s && b[4 + |s|..] == rest;
    }
    if SplitString(b) == Some((s, rest)) {
      U32Injective(b[..4]);
      assert b == b[..4] + b[4..4 + |s|] + b[4 + |s|..];
    }
  }

  lemma SplitFits(b: bytes)
    requires SplitString(b).Some?
    ensures Fits(SplitString(b).value.0) && |SplitString(b).value.1| + 4 <= |b|
    ensures b == EncodeString(SplitString(b).value.0) + SplitString(b).value.1
  {
    SplitIsEncoding(b, SplitString(b).value.0, SplitString(b).value.1);
  }

  /** `payload` is the encoding of these identities. */
  ghost predicate Encodes(payload: bytes, ids: seq<Identity>) {
    Sendable(ids) && |ids| < U32_LIMIT && payload == Encode(ids)
  }

  ghost predicate EncodesAll(b: bytes, count: nat, ids: seq<Identity>) {
    |ids| == count && Sendable(ids) && b == EncodeAll(ids)
  }

  /** What is left of `b` after one identity, if it starts with one. */
  function AfterIdentity(b: bytes): Option<bytes> {
    var blob := SplitString(b);
    if blob.None? then None
    else
      var comment := SplitString(blob.value.1);
      if comment.None? then None else Some(comment.value.1)
  }

  /** `b` holds exactly `count` pairs of strings and nothing else. */
  predicate Holds(b: bytes, count: nat)
    decreases count
  {
    if count == 0 then b == [] else AfterIdentity(b).Some? && Holds(AfterIdentity(b).value, count - 1)
  }

  /** What an identity was split into puts together again. */
  lemma AfterIdentityJoins(b: bytes) returns (id: Identity)
    requires AfterIdentity(b).Some?
    ensures Fits(id.blob) && Fits(id.comment)
    ensures b == EncodeString(id.blob) + (EncodeString(id.comment) + AfterIdentity(b).value)
  {
    var (blob, rest) := SplitString(b).value;
    SplitFits(b);
    SplitFits(rest);
    id := Identity(blob, SplitString(rest).value.0);
  }

  lemma {:induction false} HoldsEncoding(b: bytes, count: nat) returns (ids: seq<Identity>)
    requires Holds(b, count)
    ensures EncodesAll(b, count, ids)
    decreases count
  {
    if count == 0 {
      ids := [];
    } else {
      var more := HoldsEncoding(AfterIdentity(b).value, count - 1);
      var id := AfterIdentityJoins(b);
      OneMoreIdentity(id.blob, id.comment, AfterIdentity(b).value, count - 1, more);
      ids := [id] + more;
    }
  }

  lemma OneMoreIdentity(blob: bytes, comment: bytes, tail: bytes, count: nat, more: seq<Identity>)
    requires Fits(blob) && Fits(comment) && EncodesAll(tail, count, more)
    ensures EncodesAll(EncodeString(blob) + (EncodeString(comment) + tail), count + 1, [Identity(blob, comment)] + more)
  {
    assert ([Identity(blob, comment)] + more)[1..] == more;
  }

  /** The encoding of a list splits into its first identity and the encoding of the others. */
  lemma FirstIdentitySplits(ids: seq<Identity>)
    requires Sendable(ids) && ids != []
    ensures var blob := SplitString(EncodeAll(ids));
            && blob.Some? && blob.value.0 == ids[0].blob
            && SplitString(blob.value.1) == Some((ids[0].comment, EncodeAll(ids[1..])))
            && AfterIdentity(EncodeAll(ids)) == Some(EncodeAll(ids[1..]))
  {
    var rest := EncodeString(ids[0].comment) + EncodeAll(ids[1..]);
    SplitIsEncoding(EncodeAll(ids), ids[0].blob, rest);
    SplitIsEncoding(rest, ids[0].comment, EncodeAll(ids[1..]));
  }

  lemma HoldsOneMore(b: bytes, rest: bytes, count: nat)
    requires AfterIdentity(b) == Some(rest) && Holds(rest, count)
    ensures Holds(b, count + 1)
  {
  }

  lemma OneMoreHolds(ids: seq<Identity>)
    requires Sendable(ids) && ids != [] && Holds(EncodeAll(ids[1..]), |ids| - 1)
    ensures Holds(EncodeAll(ids), |ids|)
  {
    FirstIdentitySplits(ids);
    HoldsOneMore(EncodeAll(ids), EncodeAll(ids[1..]), |ids| - 1);
  }

  lemma {:induction false} EncodingHolds(ids: seq<Identity>)
    requires Sendable(ids)
    ensures Holds(EncodeAll(ids), |ids|)
    decreases |ids|
  {
    if ids != [] {
      EncodingHolds(ids[1..]);
      OneMoreHolds(ids);
    }
  }

  /** A text encodes at most one list of a given length. */
  lemma {:induction false} EncodingIsUnique(ids: seq<Identity>, other: seq<Identity>)
    requires Sendable(ids) && Sendable(other) && |ids| == |other| && EncodeAll(ids) == EncodeAll(other)
    ensures ids == other
    decreases |ids|
  {
    if ids != [] {
      FirstIdentitySplits(ids);
      FirstIdentitySplits(other);
      EncodingIsUnique(ids[1..], other[1..]);
      SameFirst(ids, other);
    }
  }

  lemma SameFirst(ids: seq<Identity>, other: seq<Identity>)
    requires ids != [] && other != [] && ids[1..] == other[1..]
    requires ids[0].blob == other[0].blob && ids[0].comment == other[0].comment
    ensures ids == other
  {
    assert ids[0] == other[0] && ids == [ids[0]] + ids[1..] && other == [other[0]] + other[1..];
  }

  // -------------------------------------------------------------- the parser

  class PayloadCursor {
    var remaining: bytes

    constructor (payload: bytes)
      ensures remaining == payload
    {
      remaining := payload;
    }

    method Take(length: nat) returns (taken: Option<bytes>)
      modifies this
      ensures taken.Some? <==> length <= |old(remaining)|
      ensures taken.Some? ==> taken.value == old(remaining)[..length] && remaining == old(remaining)[length..]
      ensures taken.None? ==> remaining == old(remaining)
    {
      if length > |remaining| { return None; }
      taken := Some(remaining[..length]);
      remaining := remaining[length..];
    }

    method ReadU32() returns (n: Option<nat>)
      modifies this
      ensures n.Some? <==> |old(remaining)| >= 4
      ensures n.Some? ==> n.value == FromU32(old(remaining)[..4]) && remaining == old(remaining)[4..]
    {
      var b := Take(4);
      if b.None? { return None; }
      return Some(FromU32(b.value));
    }

    method ReadString() returns (ok: bool)
      modifies this
      ensures ok <==> SplitString(old(remaining)).Some?
      ensures ok ==> remaining == SplitString(old(remaining)).value.1
    {
      var length := ReadU32();
      if length.None? { return false; }
      var taken := Take(length.value);
      return taken.Some?;
    }
  }

  lemma IdentityTakesEight(b: bytes)
    requires AfterIdentity(b).Some?
    ensures |AfterIdentity(b).value| + 8 <= |b|
  {
    SplitFits(b);
    SplitFits(SplitString(b).value.1);
  }

  /** One round of the parser's loop. */
  method ReadIdentity(cursor: PayloadCursor) returns (ok: bool)
    modifies cursor
    ensures ok <==> AfterIdentity(old(cursor.remaining)).Some?
    ensures ok ==> cursor.remaining == AfterIdentity(old(cursor.remaining)).value
  {
    ok := cursor.ReadString();
    if ok { ok := cursor.ReadString(); }
  }

  /** `validate_identities_payload`; `turns` counts the rounds of its loop, whatever count the payload claims. */
  method ValidateIdentitiesPayload(payload: bytes) returns (ok: bool, ghost turns: nat)
    ensures ok <==> |payload| >= 4 && Holds(payload[4..], FromU32(payload[..4]))
    ensures turns <= |payload| / 8 + 1
  {
    turns := 0;
    var cursor := new PayloadCursor(payload);
    var identities := cursor.ReadU32();
    if identities.None? { return false, turns; }
    var left := identities.value;
    while left > 0
      invariant 8 * turns + |cursor.remaining| + 4 <= |payload|
      invariant Holds(payload[4..], identities.value) <==> Holds(cursor.remaining, left)
    {
      if AfterIdentity(cursor.remaining).Some? { IdentityTakesEight(cursor.remaining); }
      turns := turns + 1;
      ok := ReadIdentity(cursor);
      if !ok { return false, turns; }
      left := left - 1;
    }
    ok := cursor.remaining == [];
  }

  /** The parser accepts exactly the encodings, and each encoding is of one list only. */
  lemma AcceptedExactlyEncodings(payload: bytes)
    ensures (|payload| >= 4 && Holds(payload[4..], FromU32(payload[..4]))) <==> exists ids :: Encodes(payload, ids)
    ensures forall ids, other :: Encodes(payload, ids) && Encodes(payload, other) ==> ids == other
  {
    if |payload| >= 4 && Holds(payload[4..], FromU32(payload[..4])) {
      var ids := HoldsEncoding(payload[4..], FromU32(payload[..4]));
      U32Injective(payload[..4]);
      assert payload == payload[..4] + payload[4..];
      assert Encodes(payload, ids);
    }
    forall ids, other | Encodes(payload, ids) && Encodes(payload, other)
      ensures ids == other && |payload| >= 4 && Holds(payload[4..], FromU32(payload[..4]))
    {
      assert payload[..4] == U32(|ids|) && payload[..4] == U32(|other|);
      assert payload[4..] == EncodeAll(ids) && payload[4..] == EncodeAll(other);
      EncodingIsUnique(ids, other);
      EncodingHolds(ids);
    }
  }
}
