/**
  Integers and strings as the relay writes them (link/protocol.go): the encoder that
  is appended to, the decoder that advances over its bytes.
*/
module Codec {
  import opened Wrappers

  newtype byte = b: int | 0 <= b < 256
  type Bytes = seq<byte>

  // ----------------------------------------------------------------- integers

  function Pow256(k: nat): nat { if k == 0 then 1 else 256 * Pow256(k - 1) }

  // The k low bytes of n, most significant first.
  function BigEndian(n: nat, k: nat): (b: Bytes)
    ensures |b| == k
  {
    if k == 0 then [] else BigEndian(n / 256, k - 1) + [(n % 256) as byte]
  }

  function Number(b: Bytes): nat {
    if b == [] then 0 else Number(b[..|b| - 1]) * 256 + b[|b| - 1] as nat
  }

  lemma {:induction false} NumberOfBigEndian(n: nat, k: nat)
    requires n < Pow256(k)
    ensures Number(BigEndian(n, k)) == n
  {
    if k > 0 {
      NumberOfBigEndian(n / 256, k - 1);
      assert BigEndian(n, k)[..k - 1] == BigEndian(n / 256, k - 1);
    }
  }

  lemma {:induction false} BigEndianOfNumber(b: Bytes)
    ensures Number(b) < Pow256(|b|) && BigEndian(Number(b), |b|) == b
  {
    if b != [] {
      BigEndianOfNumber(b[..|b| - 1]);
      assert b == b[..|b| - 1] + [b[|b| - 1]];
    }
  }

  lemma Pow256Values()
    ensures Pow256(4) == 0x1_0000_0000 && Pow256(8) == 0x1_0000_0000_0000_0000
  {
    assert Pow256(2) == 65536;
    assert Pow256(4) == 65536 * 65536;
    assert Pow256(6) == 65536 * 65536 * 65536;
  }

  // -------------------------------------------------------------------- items

  const LIMIT := 0x1_0000_0000_0000_0000

  // A payload is a list of strings and integers.
  datatype Item = S(s: Bytes) | U(n: nat)
  {
    predicate Fits() { match this case S(s) => |s| < LIMIT case U(n) => n < LIMIT }
  }

  datatype Kind = Str | Int

  function KindOf(i: Item): Kind { if i.S? then Str else Int }

  function Kinds(items: seq<Item>): (k: seq<Kind>)
    ensures |k| == |items|
  {
    if items == [] then [] else [KindOf(items[0])] + Kinds(items[1..])
  }

  function EncodeItem(i: Item): Bytes {
    match i
    case S(s) => BigEndian(|s|, 8) + s
    case U(n) => BigEndian(n, 8)
  }

  function Encode(items: seq<Item>): Bytes {
    if items == [] then [] else EncodeItem(items[0]) + Encode(items[1..])
  }

  // One item off the front: the item and the bytes after it.
  function DecodeItem(k: Kind, b: Bytes): Option<(Item, Bytes)> {
    if |b| < 8 then None
    else
      var n := Number(b[..8]);
      match k
      case Int => Some((U(n), b[8..]))
      case Str => if n > |b| - 8 then None else Some((S(b[8..8 + n]), b[8 + n..]))
  }

  function Decode(ks: seq<Kind>, b: Bytes): Option<(seq<Item>, Bytes)>
    decreases |ks|
  {
    if ks == [] then Some(([], b))
    else
      match DecodeItem(ks[0], b)
      case None => None
      case Some(first) =>
        match Decode(ks[1..], first.1)
        case None => None
        case Some(rest) => Some(([first.0] + rest.0, rest.1))
  }

  predicate AllFit(items: seq<Item>) { forall i :: i in items ==> i.Fits() }

  lemma ItemDecodes(i: Item, rest: Bytes)
    requires i.Fits()
    ensures DecodeItem(KindOf(i), EncodeItem(i) + rest) == Some((i, rest))
  {
    Pow256Values();
    var n := if i.S? then |i.s| else i.n;
    var b := EncodeItem(i) + rest;
    NumberOfBigEndian(n, 8);
    assert b[..8] == BigEndian(n, 8);
    if i.S? {
      assert b[8..8 + n] == i.s && b[8 + n..] == rest;
    } else {
      assert b[8..] == rest;
    }
  }

  lemma ItemEncodes(k: Kind, b: Bytes, i: Item, rest: Bytes)
    requires DecodeItem(k, b) == Some((i, rest))
    ensures b == EncodeItem(i) + rest && KindOf(i) == k && i.Fits()
  {
    var n, head := Number(b[..8]), b[..8];
    assert |head| == 8;
    Pow256Values();
    BigEndianOfNumber(head);
    assert BigEndian(n, 8) == head && b == head + b[8..];
    if k == Str {
      Cuts(b, 8, 8 + n);
    }
  }

  lemma Cuts(b: Bytes, m: nat, n: nat)
    requires m <= n <= |b|
    ensures b == b[..m] + b[m..n] + b[n..]
  {
  }

  // Decoding undoes encoding, whatever follows.
  lemma {:induction false} DecodeOfEncode(items: seq<Item>, rest: Bytes)
    requires AllFit(items)
    ensures Decode(Kinds(items), Encode(items) + rest) == Some((items, rest))
    decreases |items|
  {
    if items == [] {
      assert Encode(items) + rest == rest;
    } else {
      assert items[0] in items;
      assert Encode(items) + rest == EncodeItem(items[0]) + (Encode(items[1..]) + rest);
      ItemDecodes(items[0], Encode(items[1..]) + rest);
      DecodeOfEncode(items[1..], rest);
      assert items == [items[0]] + items[1..];
      assert Kinds(items)[1..] == Kinds(items[1..]);
    }
  }

  lemma EncodeCons(i: Item, items: seq<Item>, b: Bytes, mid: Bytes, rest: Bytes)
    requires b == EncodeItem(i) + mid && mid == Encode(items) + rest && i.Fits() && AllFit(items)
    ensures b == Encode([i] + items) + rest && Kinds([i] + items) == [KindOf(i)] + Kinds(items) && AllFit([i] + items)
  {
    assert ([i] + items)[1..] == items;
    assert EncodeItem(i) + (Encode(items) + rest) == EncodeItem(i) + Encode(items) + rest;
  }

  // Encoding undoes decoding: nothing but the encoding decodes.
  lemma {:induction false} EncodeOfDecode(ks: seq<Kind>, b: Bytes, items: seq<Item>, rest: Bytes)
    requires Decode(ks, b) == Some((items, rest))
    ensures b == Encode(items) + rest && Kinds(items) == ks && AllFit(items)
    decreases |ks|
  {
    if ks == [] {
      assert Encode(items) + rest == rest;
    } else {
      var first := DecodeItem(ks[0], b).value;
      var tail := Decode(ks[1..], first.1).value;
      ItemEncodes(ks[0], b, first.0, first.1);
      EncodeOfDecode(ks[1..], first.1, tail.0, tail.1);
      EncodeCons(first.0, tail.0, b, first.1, rest);
    }
  }

  // ----------------------------------------------- the encoder and the decoder

  class Encoder {
    var b: Bytes

    constructor ()
      ensures b == []
    {
      b := [];
    }

    method U64(n: nat)
      requires n < LIMIT
      modifies this
      ensures b == old(b) + EncodeItem(U(n))
    {
      b := b + BigEndian(n, 8);
    }

    method Str(s: Bytes)
      requires |s| < LIMIT
      modifies this
      ensures b == old(b) + EncodeItem(S(s))
    {
      U64(|s|);
      b := b + s;
    }
  }

  // The bytes b begin with the items x.
  predicate Begins(b: Bytes, x: seq<Item>) {
    AllFit(x) && Encode(x) <= b
  }

  lemma Regroup(a: Bytes, b: Bytes, c: Bytes)
    ensures a + (b + c) == a + b + c
  {
  }

  lemma {:induction false} EncodeJoins(x: seq<Item>, y: seq<Item>)
    ensures Encode(x + y) == Encode(x) + Encode(y)
  {
    if x == [] {
      assert x + y == y;
    } else {
      EncodeJoins(x[1..], y);
      FirstOfJoin(x, y);
      JoinsOn(x[0], x[1..], y, x[1..] + y);
    }
  }

  lemma FirstOfJoin(x: seq<Item>, y: seq<Item>)
    requires x != []
    ensures x + y == [x[0]] + (x[1..] + y) && x == [x[0]] + x[1..]
  {
  }

  lemma JoinsOn(i: Item, x: seq<Item>, y: seq<Item>, joined: seq<Item>)
    requires Encode(joined) == Encode(x) + Encode(y)
    ensures Encode([i] + joined) == Encode([i] + x) + Encode(y)
  {
    EncodeHead(i, joined);
    EncodeHead(i, x);
    Regroup(EncodeItem(i), Encode(x), Encode(y));
  }

  lemma EncodeHead(i: Item, items: seq<Item>)
    ensures Encode([i] + items) == EncodeItem(i) + Encode(items)
  {
    assert ([i] + items)[1..] == items;
  }

  // Bytes begin in only one way with items of given kinds.
  lemma BeginsOnce(b: Bytes, x: seq<Item>, y: seq<Item>)
    requires Begins(b, x) && Begins(b, y) && Kinds(x) == Kinds(y)
    ensures x == y
  {
    BeginsDecodes(b, x);
    BeginsDecodes(b, y);
  }

  lemma BeginsDecodes(b: Bytes, x: seq<Item>)
    requires Begins(b, x)
    ensures Decode(Kinds(x), b) == Some((x, b[|Encode(x)|..]))
  {
    assert b == Encode(x) + b[|Encode(x)|..];
    DecodeOfEncode(x, b[|Encode(x)|..]);
  }

  lemma AloneEncodes(i: Item)
    ensures Encode([i]) == EncodeItem(i)
  {
    var none: seq<Item> := [];
    assert [i][1..] == none && Encode(none) == [];
  }

  lemma AfterPrefix(b: Bytes, e: Bytes, m: Bytes)
    requires e + m <= b
    ensures e <= b && b[|e|..] == m + b[|e + m|..]
  {
    assert b == e + m + b[|e + m|..];
  }

  lemma NextDecodes(b: Bytes, y: seq<Item>, i: Item)
    requires Begins(b, y + [i])
    ensures Begins(b, y) && DecodeItem(KindOf(i), b[|Encode(y)|..]).Some?
  {
    EncodeJoins(y, [i]);
    AloneEncodes(i);
    AfterPrefix(b, Encode(y), EncodeItem(i));
    assert i in y + [i] && forall j :: j in y ==> j in y + [i];
    ItemDecodes(i, b[|Encode(y) + EncodeItem(i)|..]);
  }

  // If after the items x no item of kind k can be read, b does not begin with x's
  // kinds and then k.
  lemma Stuck(b: Bytes, x: seq<Item>, k: Kind, y: seq<Item>, i: Item)
    requires Begins(b, x) && DecodeItem(k, b[|Encode(x)|..]).None? && Kinds(x) == Kinds(y) && KindOf(i) == k
    ensures !Begins(b, y + [i])
  {
    if Begins(b, y + [i]) {
      NextDecodes(b, y, i);
      BeginsOnce(b, x, y);
    }
  }

  // `read` are the items got so far.
  class Decoder {
    const b: Bytes
    var i: nat
    ghost var read: seq<Item>

    ghost predicate Valid()
      reads this
    {
      i <= |b| && b[..i] == Encode(read) && AllFit(read)
    }

    constructor (b: Bytes)
      ensures Valid() && this.b == b && read == []
    {
      this.b := b;
      i, read := 0, [];
    }

    ghost method Got(n: nat, x: Item)
      requires Valid() && n <= |b| && i <= n && b[i..n] == EncodeItem(x) && x.Fits()
      modifies this`read
      ensures read == old(read) + [x] && b[..n] == Encode(read) && AllFit(read)
    {
      EncodeJoins(read, [x]);
      AloneEncodes(x);
      assert b[..n] == b[..i] + b[i..n];
      read := read + [x];
    }

    method U64() returns (r: Option<nat>)
      requires Valid()
      modifies this
      ensures Valid()
      ensures if r.Some? then read == old(read) + [U(r.value)] else read == old(read) && DecodeItem(Int, b[|Encode(read)|..]).None?
    {
      if |b| - i < 8 {
        return None;
      }
      var n := Number(b[i..i + 8]);
      BigEndianOfNumber(b[i..i + 8]);
      Pow256Values();
      Got(i + 8, U(n));
      i := i + 8;
      r := Some(n);
    }

    method Str() returns (r: Option<Bytes>)
      requires Valid()
      modifies this
      ensures if r.Some? then Valid() && read == old(read) + [S(r.value)]
              else read == old(read) && Begins(b, read) && DecodeItem(Kind.Str, b[|Encode(read)|..]).None?
    {
      if |b| - i < 8 {
        return None;
      }
      var n := Number(b[i..i + 8]);
      BigEndianOfNumber(b[i..i + 8]);
      Pow256Values();
      if n > |b| - (i + 8) {
        assert b[i..][..8] == b[i..i + 8];
        return None;
      }
      var s := b[i + 8..i + 8 + n];
      assert b[i..i + 8 + n] == b[i..i + 8] + s;
      Got(i + 8 + n, S(s));
      i := i + 8 + n;
      r := Some(s);
    }

    // What has been read so far is how the bytes begin.
    lemma Seen()
      requires Valid()
      ensures Begins(b, read)
    {
    }

    method Done() returns (ok: bool)
      requires Valid()
      ensures Begins(b, read) && (ok <==> b == Encode(read))
    {
      ok := i == |b|;
      assert i == |b| ==> b[..i] == b;
    }
  }
}
