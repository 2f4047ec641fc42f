/**
  The frames of the relay (link/protocol.go): each payload's layout, its writer and
  its reader. A reader returns a value exactly when the frame is the one written
  for that value.
*/
module Frames {
  import opened Codec
  import opened Wrappers

  const HELLO: byte := 1
  const OFFER: byte := 2
  const DATA: byte := 5
  const ERROR: byte := 9

  datatype Frame = Frame(typ: byte, payload: Bytes)

  // The payload p is the encoding of the items.
  predicate Holds(p: Bytes, items: seq<Item>) {
    p == Encode(items) && AllFit(items)
  }

  lemma {:induction false} KindsAt(x: seq<Item>)
    ensures forall i :: 0 <= i < |x| ==> Kinds(x)[i] == KindOf(x[i])
  {
    if x != [] {
      KindsAt(x[1..]);
      forall i | 0 < i < |x|
        ensures Kinds(x)[i] == KindOf(x[i])
      {
        assert Kinds(x)[i] == Kinds(x[1..])[i - 1] && x[1..][i - 1] == x[i];
      }
    }
  }

  lemma EncodeSnoc(x: seq<Item>, i: Item)
    ensures Encode(x + [i]) == Encode(x) + EncodeItem(i)
  {
    EncodeJoins(x, [i]);
    AloneEncodes(i);
  }

  // The payload holds no items that begin with kinds of `read` and then i, if after
  // `read` no item of i's kind can be read.
  lemma RefutedByItem(p: Bytes, read: seq<Item>, items: seq<Item>, y: seq<Item>, i: Item)
    requires Begins(p, read) && Kinds(read) == Kinds(y) && y + [i] <= items
    requires DecodeItem(KindOf(i), p[|Encode(read)|..]).None?
    ensures !Holds(p, items)
  {
    if Holds(p, items) {
      assert items == y + [i] + items[|y| + 1..];
      BeginsFirst(p, y + [i], items[|y| + 1..]);
      Stuck(p, read, KindOf(i), y, i);
    }
  }

  lemma RefutedByRest(p: Bytes, read: seq<Item>, items: seq<Item>)
    requires Begins(p, read) && Kinds(read) == Kinds(items) && p != Encode(read)
    ensures !Holds(p, items)
  {
    if Holds(p, items) {
      BeginsOnce(p, read, items);
    }
  }

  // A reader has got `read` of a payload whose items would be `items`, and the next
  // one is not there, or something trails.
  lemma Refuted(p: Bytes, read: seq<Item>, items: seq<Item>)
    requires Begins(p, read) && |read| <= |items| && forall j :: 0 <= j < |read| ==> KindOf(read[j]) == KindOf(items[j])
    requires if |read| < |items| then DecodeItem(KindOf(items[|read|]), p[|Encode(read)|..]).None? else p != Encode(read)
    ensures !Holds(p, items)
  {
    var n := |read|;
    SameKinds(read, items[..n]);
    if n < |items| {
      assert items[..n] + [items[n]] <= items;
      RefutedByItem(p, read, items, items[..n], items[n]);
    } else {
      assert items[..n] == items;
      RefutedByRest(p, read, items);
    }
  }

  lemma SameKinds(x: seq<Item>, y: seq<Item>)
    requires |x| == |y| && forall j :: 0 <= j < |x| ==> KindOf(x[j]) == KindOf(y[j])
    ensures Kinds(x) == Kinds(y)
  {
    KindsAt(x);
    KindsAt(y);
  }

  lemma BeginsFirst(p: Bytes, x: seq<Item>, y: seq<Item>)
    requires Holds(p, x + y)
    ensures Begins(p, x)
  {
    EncodeJoins(x, y);
    assert forall j :: j in x ==> j in x + y;
  }

  // A writer of payloads: the source's encoder with what has been put into it.
  class Writer {
    const e: Encoder
    ghost var items: seq<Item>

    ghost predicate Valid()
      reads this, e
    {
      e.b == Encode(items) && AllFit(items)
    }

    constructor ()
      ensures Valid() && fresh(e) && items == []
    {
      e := new Encoder();
      items := [];
    }

    method U64(n: nat)
      requires Valid() && n < LIMIT
      modifies this, e
      ensures Valid() && items == old(items) + [U(n)]
    {
      e.U64(n);
      EncodeSnoc(items, U(n));
      items := items + [U(n)];
    }

    method Str(s: Bytes)
      requires Valid() && |s| < LIMIT
      modifies this, e
      ensures Valid() && items == old(items) + [S(s)]
    {
      e.Str(s);
      EncodeSnoc(items, S(s));
      items := items + [S(s)];
    }
  }

  // -------------------------------------------------------------------- HELLO

  datatype Hello = Hello(magic: Bytes, major: nat, minor: nat, node: Bytes, role: Bytes, impl: Bytes)

  function HelloItems(h: Hello): seq<Item> {
    [S(h.magic), U(h.major), U(h.minor), S(h.node), S(h.role), S(h.impl)]
  }

  ghost predicate IsHello(f: Frame, h: Hello) {
    f.typ == HELLO && Holds(f.payload, HelloItems(h))
  }

  predicate HelloFits(h: Hello) {
    |h.magic| < LIMIT && h.major < LIMIT && h.minor < LIMIT && |h.node| < LIMIT && |h.role| < LIMIT && |h.impl| < LIMIT
  }

  method HelloFrame(h: Hello) returns (f: Frame)
    requires HelloFits(h)
    ensures IsHello(f, h)
  {
    var w := new Writer();
    w.Str(h.magic);
    w.U64(h.major);
    w.U64(h.minor);
    w.Str(h.node);
    w.Str(h.role);
    w.Str(h.impl);
    assert w.items == HelloItems(h);
    f := Frame(HELLO, w.e.b);
  }

  // The kind of the j-th item of a HELLO.
  function HelloKind(j: nat): Kind { if j == 1 || j == 2 then Int else Str }

  // A reader of HELLOs that has got `read` of the payload p gets no further.
  ghost predicate HelloStuck(p: Bytes, read: seq<Item>) {
    && Begins(p, read) && |read| <= 6
    && (forall j :: 0 <= j < |read| ==> KindOf(read[j]) == HelloKind(j))
    && if |read| < 6 then DecodeItem(HelloKind(|read|), p[|Encode(read)|..]).None? else p != Encode(read)
  }

  lemma NoHello(f: Frame, read: seq<Item>)
    requires HelloStuck(f.payload, read)
    ensures forall h :: !IsHello(f, h)
  {
    forall h
      ensures !IsHello(f, h)
    {
      Refuted(f.payload, read, HelloItems(h));
    }
  }

  // The first three fields.
  method DecodeVersion(d: Decoder) returns (r: Option<(Bytes, nat, nat)>)
    requires d.Valid() && d.read == []
    modifies d
    ensures r.Some? ==> d.Valid() && d.read == [S(r.value.0), U(r.value.1), U(r.value.2)]
    ensures r.None? ==> HelloStuck(d.b, d.read)
  {
    var magic := d.Str();
    if magic.None? {
      return None;
    }
    var major := d.U64();
    if major.None? {
      return None;
    }
    var minor := d.U64();
    if minor.None? {
      return None;
    }
    r := Some((magic.value, major.value, minor.value));
  }

  // The last three fields.
  method DecodeParties(d: Decoder) returns (r: Option<(Bytes, Bytes, Bytes)>)
    requires d.Valid() && |d.read| == 3 && d.read[0].S? && d.read[1].U? && d.read[2].U?
    modifies d
    ensures r.Some? ==> d.Valid() && d.read == old(d.read) + [S(r.value.0), S(r.value.1), S(r.value.2)] && Holds(d.b, d.read)
    ensures r.None? ==> HelloStuck(d.b, d.read)
  {
    var node := d.Str();
    if node.None? {
      return None;
    }
    var role := d.Str();
    if role.None? {
      return None;
    }
    var impl := d.Str();
    if impl.None? {
      return None;
    }
    var done := d.Done();
    if !done {
      return None;
    }
    r := Some((node.value, role.value, impl.value));
  }

  method DecodeHello(f: Frame) returns (r: Option<Hello>)
    ensures r.Some? ==> IsHello(f, r.value)
    ensures r.None? ==> forall h :: !IsHello(f, h)
  {
    if f.typ != HELLO {
      return None;
    }
    var d := new Decoder(f.payload);
    var version := DecodeVersion(d);
    if version.None? {
      NoHello(f, d.read);
      return None;
    }
    var parties := DecodeParties(d);
    if parties.None? {
      NoHello(f, d.read);
      return None;
    }
    r := Some(Hello(version.value.0, version.value.1, version.value.2, parties.value.0, parties.value.1, parties.value.2));
    assert d.read == HelloItems(r.value);
  }

  // One HELLO frame, one HELLO.
  lemma HelloOnce(f: Frame, a: Hello, b: Hello)
    requires IsHello(f, a) && IsHello(f, b)
    ensures a == b
  {
    SameKinds(HelloItems(a), HelloItems(b));
    BeginsOnce(f.payload, HelloItems(a), HelloItems(b));
    assert HelloItems(a)[0] == HelloItems(b)[0] && HelloItems(a)[1] == HelloItems(b)[1] && HelloItems(a)[2] == HelloItems(b)[2];
    assert HelloItems(a)[3] == HelloItems(b)[3] && HelloItems(a)[4] == HelloItems(b)[4] && HelloItems(a)[5] == HelloItems(b)[5];
  }

  // ------------------------------------------------ ids, data, epochs, errors

  method IdFrame(typ: byte, id: Bytes) returns (f: Frame)
    requires |id| < LIMIT
    ensures f.typ == typ && Holds(f.payload, [S(id)])
  {
    var w := new Writer();
    w.Str(id);
    assert w.items == [S(id)];
    f := Frame(typ, w.e.b);
  }

  method DecodeID(f: Frame) returns (r: Option<Bytes>)
    ensures r.Some? ==> Holds(f.payload, [S(r.value)])
    ensures r.None? ==> forall id :: !Holds(f.payload, [S(id)])
  {
    var d := new Decoder(f.payload);
    var id := d.Str();
    if id.None? {
      NoId(f.payload, d.read);
      return None;
    }
    var done := d.Done();
    if !done {
      NoId(f.payload, d.read);
      return None;
    }
    r := id;
  }

  lemma NoId(p: Bytes, read: seq<Item>)
    requires Begins(p, read) && |read| <= 1 && (|read| == 1 ==> read[0].S?)
    requires if |read| == 0 then DecodeItem(Str, p[|Encode(read)|..]).None? else p != Encode(read)
    ensures forall id :: !Holds(p, [S(id)])
  {
    forall id
      ensures !Holds(p, [S(id)])
    {
      Refuted(p, read, [S(id)]);
    }
  }

  // DATA: the id, then the object to the end of the payload.
  predicate IsData(p: Bytes, id: Bytes, data: Bytes) {
    |id| < LIMIT && p == EncodeItem(S(id)) + data
  }

  method DataFrame(id: Bytes, data: Bytes) returns (f: Frame)
    requires |id| < LIMIT
    ensures f.typ == DATA && IsData(f.payload, id, data)
  {
    var w := new Writer();
    w.Str(id);
    assert w.items == [S(id)];
    AloneEncodes(S(id));
    f := Frame(DATA, w.e.b + data);
  }

  method DecodeData(f: Frame) returns (r: Option<(Bytes, Bytes)>)
    ensures r.Some? ==> IsData(f.payload, r.value.0, r.value.1)
    ensures r.None? ==> forall id, data :: !IsData(f.payload, id, data)
  {
    var d := new Decoder(f.payload);
    var id := d.Str();
    if id.None? {
      assert f.payload[0..] == f.payload;
      NoData(f.payload);
      return None;
    }
    assert d.read == [S(id.value)] && S(id.value) in d.read;
    SomeData(f.payload, id.value, d.i);
    r := Some((id.value, f.payload[d.i..]));
  }

  lemma SomeData(p: Bytes, id: Bytes, n: nat)
    requires n <= |p| && p[..n] == Encode([S(id)]) && |id| < LIMIT
    ensures IsData(p, id, p[n..])
  {
    AloneEncodes(S(id));
    assert p == p[..n] + p[n..];
  }

  lemma NoData(p: Bytes)
    requires DecodeItem(Str, p).None?
    ensures forall id, data :: !IsData(p, id, data)
  {
    forall id, data
      ensures !IsData(p, id, data)
    {
      if IsData(p, id, data) {
        ItemDecodes(S(id), data);
      }
    }
  }

  lemma DataOnce(p: Bytes, i: Bytes, x: Bytes, j: Bytes, y: Bytes)
    requires IsData(p, i, x) && IsData(p, j, y)
    ensures i == j && x == y
  {
    ItemDecodes(S(i), x);
    ItemDecodes(S(j), y);
  }

  method EpochFrame(typ: byte, epoch: nat) returns (f: Frame)
    requires epoch < LIMIT
    ensures f.typ == typ && Holds(f.payload, [U(epoch)])
  {
    var w := new Writer();
    w.U64(epoch);
    assert w.items == [U(epoch)];
    f := Frame(typ, w.e.b);
  }

  method DecodeEpoch(f: Frame) returns (r: Option<nat>)
    ensures r.Some? ==> Holds(f.payload, [U(r.value)])
    ensures r.None? ==> forall n :: !Holds(f.payload, [U(n)])
  {
    var d := new Decoder(f.payload);
    var n := d.U64();
    if n.None? {
      NoEpoch(f.payload, d.read);
      return None;
    }
    var done := d.Done();
    if !done {
      NoEpoch(f.payload, d.read);
      return None;
    }
    r := n;
  }

  lemma NoEpoch(p: Bytes, read: seq<Item>)
    requires Begins(p, read) && |read| <= 1 && (|read| == 1 ==> read[0].U?)
    requires if |read| == 0 then DecodeItem(Int, p[|Encode(read)|..]).None? else p != Encode(read)
    ensures forall n :: !Holds(p, [U(n)])
  {
    forall n
      ensures !Holds(p, [U(n)])
    {
      Refuted(p, read, [U(n)]);
    }
  }

  datatype ProtocolError = ProtocolError(code: Bytes, recoverable: bool, text: Bytes)

  function ErrorItems(e: ProtocolError): seq<Item> {
    [S(e.code), U(if e.recoverable then 1 else 0), S(e.text)]
  }

  method ErrorFrame(e: ProtocolError) returns (f: Frame)
    requires |e.code| < LIMIT && |e.text| < LIMIT
    ensures f.typ == ERROR && Holds(f.payload, ErrorItems(e))
  {
    var w := new Writer();
    w.Str(e.code);
    if e.recoverable {
      w.U64(1);
    } else {
      w.U64(0);
    }
    w.Str(e.text);
    assert w.items == ErrorItems(e);
    f := Frame(ERROR, w.e.b);
  }

  function ErrorKind(j: nat): Kind { if j == 1 then Int else Str }

  ghost predicate ErrorStuck(p: Bytes, read: seq<Item>) {
    && Begins(p, read) && |read| <= 3
    && (forall j :: 0 <= j < |read| ==> KindOf(read[j]) == ErrorKind(j))
    && if |read| < 3 then DecodeItem(ErrorKind(|read|), p[|Encode(read)|..]).None? else p != Encode(read)
  }

  lemma NoError(p: Bytes, read: seq<Item>)
    requires ErrorStuck(p, read)
    ensures forall e :: !Holds(p, ErrorItems(e))
  {
    forall e
      ensures !Holds(p, ErrorItems(e))
    {
      Refuted(p, read, ErrorItems(e));
    }
  }

  // A flag above one is of no error.
  lemma NoFlag(p: Bytes, read: seq<Item>)
    requires Begins(p, read) && |read| == 2 && read[0].S? && read[1].U? && read[1].n > 1
    ensures forall e :: !Holds(p, ErrorItems(e))
  {
    forall e
      ensures !Holds(p, ErrorItems(e))
    {
      var x := ErrorItems(e);
      if Holds(p, x) {
        assert x == x[..2] + x[2..] && x[..2][1] == x[1];
        BeginsFirst(p, x[..2], x[2..]);
        SameKinds(read, x[..2]);
        BeginsOnce(p, read, x[..2]);
      }
    }
  }

  method DecodeError(f: Frame) returns (r: Option<ProtocolError>)
    ensures r.Some? ==> Holds(f.payload, ErrorItems(r.value))
    ensures r.None? ==> forall e :: !Holds(f.payload, ErrorItems(e))
  {
    var d := new Decoder(f.payload);
    var code := d.Str();
    if code.None? {
      NoError(f.payload, d.read);
      return None;
    }
    var flag := d.U64();
    if flag.None? {
      NoError(f.payload, d.read);
      return None;
    }
    if flag.value > 1 {
      d.Seen();
      NoFlag(f.payload, d.read);
      return None;
    }
    var text := d.Str();
    if text.None? {
      NoError(f.payload, d.read);
      return None;
    }
    var done := d.Done();
    if !done {
      NoError(f.payload, d.read);
      return None;
    }
    r := Some(ProtocolError(code.value, flag.value == 1, text.value));
    assert d.read == ErrorItems(r.value);
  }

  lemma ErrorOnce(p: Bytes, a: ProtocolError, b: ProtocolError)
    requires Holds(p, ErrorItems(a)) && Holds(p, ErrorItems(b))
    ensures a == b
  {
    SameKinds(ErrorItems(a), ErrorItems(b));
    BeginsOnce(p, ErrorItems(a), ErrorItems(b));
    assert ErrorItems(a)[0] == ErrorItems(b)[0] && ErrorItems(a)[1] == ErrorItems(b)[1] && ErrorItems(a)[2] == ErrorItems(b)[2];
  }
}
