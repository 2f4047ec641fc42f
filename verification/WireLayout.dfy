/**
  The bytes themselves (link/protocol.go): where each field of a frame stands, so that
  writer and reader agree not only with each other but with the protocol.
*/
module WireLayout {
  import opened Codec
  import opened Frames
  import opened FrameStream
  import opened Wire

  // A length in eight bytes, high byte first, and the bytes.
  function Text(s: Bytes): Bytes { Eight(|s|) + s }

  function Eight(n: nat): Bytes { Two(n / 0x1_0000_0000_0000) + Two(n / 0x1_0000_0000) + Two(n / 0x1_0000) + Two(n) }

  function Two(n: nat): Bytes { [(n / 256 % 256) as byte, (n % 256) as byte] }

  lemma BigEndianTwo(n: nat, k: nat)
    ensures BigEndian(n, k + 2) == BigEndian(n / 65536, k) + Two(n)
  {
    assert n / 256 / 256 == n / 65536;
    assert BigEndian(n, k + 2) == BigEndian(n / 256, k + 1) + [(n % 256) as byte];
  }

  lemma EightIsBigEndian(n: nat)
    ensures BigEndian(n, 8) == Eight(n)
  {
    BigEndianTwo(n, 6);
    BigEndianTwo(n / 0x1_0000, 4);
    BigEndianTwo(n / 0x1_0000_0000, 2);
    BigEndianTwo(n / 0x1_0000_0000_0000, 0);
    assert n / 0x1_0000 / 0x1_0000 == n / 0x1_0000_0000 && n / 0x1_0000_0000 / 0x1_0000 == n / 0x1_0000_0000_0000;
  }

  function ItemBytes(i: Item): Bytes { match i case S(s) => Text(s) case U(n) => Eight(n) }

  function AllBytes(items: seq<Item>): Bytes { if items == [] then [] else AllBytes(items[..|items| - 1]) + ItemBytes(items[|items| - 1]) }

  lemma {:induction false} EncodePrefix(items: seq<Item>, n: nat)
    requires n <= |items|
    ensures Encode(items[..n]) == AllBytes(items[..n])
  {
    if n == 0 {
      NoBytes(items[..n]);
    } else {
      EncodePrefix(items, n - 1);
      LayoutOn(items[..n - 1], items[n - 1]);
      OneLonger(items, n - 1);
    }
  }

  lemma NoBytes(items: seq<Item>)
    requires |items| == 0
    ensures Encode(items) == [] == AllBytes(items)
  {
  }

  lemma OneLonger(items: seq<Item>, n: nat)
    requires n < |items|
    ensures items[..n] + [items[n]] == items[..n + 1]
  {
  }

  lemma EncodeLayout(items: seq<Item>)
    ensures Encode(items) == AllBytes(items)
  {
    EncodePrefix(items, |items|);
    assert items[..|items|] == items;
  }

  lemma LayoutOn(items: seq<Item>, i: Item)
    requires Encode(items) == AllBytes(items)
    ensures Encode(items + [i]) == AllBytes(items + [i])
  {
    EncodeMore(items, i);
    More(items, i);
  }

  lemma ItemLayout(i: Item)
    ensures EncodeItem(i) == ItemBytes(i)
  {
    EightIsBigEndian(if i.S? then |i.s| else i.n);
  }

  lemma EncodeMore(items: seq<Item>, i: Item)
    ensures Encode(items + [i]) == Encode(items) + ItemBytes(i)
  {
    EncodeSnoc(items, i);
    ItemLayout(i);
  }

  lemma More(items: seq<Item>, i: Item)
    ensures AllBytes(items + [i]) == AllBytes(items) + ItemBytes(i)
  {
    assert (items + [i])[..|items|] == items;
  }

  lemma Three(a: Item, b: Item, c: Item)
    ensures AllBytes([a, b, c]) == ItemBytes(a) + ItemBytes(b) + ItemBytes(c)
  {
    FirstTwo(a, b);
    assert [a, b] + [c] == [a, b, c];
    More([a, b], c);
  }

  lemma AndThree(items: seq<Item>, a: Item, b: Item, c: Item)
    ensures AllBytes(items + [a, b, c]) == AllBytes(items) + ItemBytes(a) + ItemBytes(b) + ItemBytes(c)
  {
    var one, two, three := items + [a], items + [a, b], items + [a, b, c];
    More(items, a);
    assert one + [b] == two;
    More(one, b);
    assert two + [c] == three;
    More(two, c);
  }

  // HELLO: magic, major, minor, node, role, implementation.
  lemma HelloLayout(f: Frame, h: Hello)
    requires IsHello(f, h)
    ensures f.typ == 1 && f.payload == Text(h.magic) + Eight(h.major) + Eight(h.minor) + Text(h.node) + Text(h.role) + Text(h.impl)
  {
    EncodeLayout(HelloItems(h));
    Three(S(h.magic), U(h.major), U(h.minor));
    AndThree([S(h.magic), U(h.major), U(h.minor)], S(h.node), S(h.role), S(h.impl));
    assert [S(h.magic), U(h.major), U(h.minor)] + [S(h.node), S(h.role), S(h.impl)] == HelloItems(h);
  }

  // ERROR: code, one for recoverable, text.
  lemma ErrorLayout(p: Bytes, e: ProtocolError)
    requires Holds(p, ErrorItems(e))
    ensures p == Text(e.code) + Eight(if e.recoverable then 1 else 0) + Text(e.text)
  {
    EncodeLayout(ErrorItems(e));
    Three(S(e.code), U(if e.recoverable then 1 else 0), S(e.text));
  }

  // No item or one.
  function Maybe(items: seq<Item>): Bytes { if items == [] then [] else ItemBytes(items[0]) }

  lemma MoreMaybe(items: seq<Item>, more: seq<Item>)
    requires |more| <= 1
    ensures AllBytes(items + more) == AllBytes(items) + Maybe(more)
  {
    if more == [] {
      assert items + more == items;
    } else {
      assert more == [more[0]];
      More(items, more[0]);
    }
  }

  lemma FirstTwo(a: Item, b: Item)
    ensures AllBytes([a, b]) == ItemBytes(a) + ItemBytes(b)
  {
    var none: seq<Item> := [];
    assert none + [a] == [a] && [a] + [b] == [a, b];
    More(none, a);
    assert AllBytes(none) + ItemBytes(a) == ItemBytes(a);
    More([a], b);
  }

  lemma Eighth(a: Item, b: Item, stream: seq<Item>, c: Item, session: seq<Item>, d: Item, e: Item, f: Item)
    requires |stream| <= 1 && |session| <= 1
    ensures AllBytes([a, b] + stream + [c] + session + [d, e, f]) ==
            ItemBytes(a) + ItemBytes(b) + Maybe(stream) + ItemBytes(c) + Maybe(session) + ItemBytes(d) + ItemBytes(e) + ItemBytes(f)
  {
    FirstTwo(a, b);
    MoreMaybe([a, b], stream);
    More([a, b] + stream, c);
    MoreMaybe([a, b] + stream + [c], session);
    AndThree([a, b] + stream + [c] + session, d, e, f);
  }

  // OFFER: id, class, the stream of a stream object, node, the session of a status,
  // basename, size, and the text of the digest.
  lemma OfferLayout(p: Bytes, o: Offer, text: Bytes)
    requires Holds(p, OfferItems(o, text))
    ensures p == Text(o.id) + Text(o.obj.class_) + (if o.obj.class_ == [115, 116, 114, 101, 97, 109] then Text(o.obj.stream) else []) +
                 Text(o.obj.node) + (if o.obj.class_ == [109, 105, 110, 100] then Text(o.obj.session) else []) +
                 Text(o.obj.basename) + Eight(o.size) + Text(text)
  {
    var stream := if o.obj.class_ == STREAM then [S(o.obj.stream)] else [];
    var session := if o.obj.class_ == MIND then [S(o.obj.session)] else [];
    EncodeLayout(OfferItems(o, text));
    Eighth(S(o.id), S(o.obj.class_), stream, S(o.obj.node), session, S(o.obj.basename), U(o.size), S(text));
    assert OfferItems(o, text) ==
      [S(o.id), S(o.obj.class_)] + stream + [S(o.obj.node)] + session + [S(o.obj.basename), U(o.size), S(text)];
  }

  // On the wire: the type, four bytes of length, high byte first, the payload.
  lemma FrameLayout(f: Frame)
    requires Sizable(f)
    ensures OnWire(f) == [f.typ] + Two(|f.payload| / 0x1_0000) + Two(|f.payload|) + f.payload
  {
    BigEndianTwo(|f.payload|, 2);
    BigEndianTwo(|f.payload| / 0x1_0000, 0);
  }

  // A digest is written in lower-case hexadecimal, high half first.
  predicate TextOfByte(t: Bytes, b: Bytes, i: nat)
    requires i < |b| && |t| == 2 * |b|
  {
    t[2 * i] == Digit(b[i] as nat / 16) && t[2 * i + 1] == Digit(b[i] as nat % 16)
  }

  lemma {:induction false} HexLayout(b: Bytes, i: nat)
    requires i < |b|
    ensures |Hex(b)| == 2 * |b| && TextOfByte(Hex(b), b, i)
  {
    HexFirst(b);
    if i > 0 {
      HexLayout(b[1..], i - 1);
      FromSecond(Hex(b), b, i);
    }
  }

  lemma FromSecond(t: Bytes, b: Bytes, i: nat)
    requires 0 < i < |b| && |t| == 2 * |b| && |t[2..]| == 2 * |b[1..]| && TextOfByte(t[2..], b[1..], i - 1)
    ensures TextOfByte(t, b, i)
  {
    assert t[2..][2 * (i - 1)] == t[2 * i] && t[2..][2 * (i - 1) + 1] == t[2 * i + 1];
  }

  lemma HexFirst(b: Bytes)
    requires b != []
    ensures |Hex(b)| == 2 * |b| && Hex(b)[2..] == Hex(b[1..])
    ensures Hex(b)[0] == Digit(b[0] as nat / 16) && Hex(b)[1] == Digit(b[0] as nat % 16)
  {
    UnhexOfHex(b);
    DigitExact(b[0] as nat / 16);
    DigitExact(b[0] as nat % 16);
  }

  lemma DigitExact(n: nat)
    requires n < 16
    ensures HexDigit(n) == Digit(n)
  {
  }

  // '0' to '9', then 'a' to 'f'.
  function Digit(n: nat): byte
    requires n < 16
  {
    [48, 49, 50, 51, 52, 53, 54, 55, 56, 57, 97, 98, 99, 100, 101, 102][n]
  }

  // The bytes a transfer id is the hash of.
  lemma PreimageLayout(o: Object, digest: Bytes)
    ensures Preimage(o, digest) ==
      o.class_ + [0] + (if o.class_ == [115, 116, 114, 101, 97, 109] then o.stream + [0] else []) + (o.node + [0]) +
      (if o.class_ == [109, 105, 110, 100] then o.session + [0] else []) + o.basename + digest
  {
  }
}
