/**
  Offers and transfer ids (link/protocol.go). SHA-256 is the parameter `hash`.
*/
module Wire {
  import opened Codec
  import opened Frames
  import opened Wrappers

  // ---------------------------------------------------------------------- hex

  function HexDigit(n: nat): byte
    requires n < 16
  {
    if n < 10 then 48 + n as byte else 87 + n as byte
  }

  function FromHex(c: byte): Option<nat> {
    if 48 <= c <= 57 then Some((c - 48) as nat)
    else if 97 <= c <= 102 then Some((c - 87) as nat)
    else if 65 <= c <= 70 then Some((c - 55) as nat)
    else None
  }

  // hex.EncodeToString and hex.DecodeString
  function Hex(b: Bytes): Bytes {
    if b == [] then [] else [HexDigit(b[0] as nat / 16), HexDigit(b[0] as nat % 16)] + Hex(b[1..])
  }

  function Unhex(t: Bytes): Option<Bytes>
    decreases |t|
  {
    if t == [] then Some([])
    else if |t| == 1 then None
    else
      var hi, lo, rest := FromHex(t[0]), FromHex(t[1]), Unhex(t[2..]);
      if hi.None? || lo.None? || rest.None? then None else Some([(hi.value * 16 + lo.value) as byte] + rest.value)
  }

  lemma HexDigitBack(n: nat)
    requires n < 16
    ensures FromHex(HexDigit(n)) == Some(n)
  {
  }

  lemma {:induction false} UnhexOfHex(b: Bytes)
    ensures Unhex(Hex(b)) == Some(b) && |Hex(b)| == 2 * |b|
  {
    if b != [] {
      UnhexOfHex(b[1..]);
      assert Hex(b)[2..] == Hex(b[1..]);
      HexDigitBack(b[0] as nat / 16);
      HexDigitBack(b[0] as nat % 16);
      assert b == [b[0]] + b[1..];
    }
  }

  // -------------------------------------------------------------- transfer ids

  const STREAM: Bytes := [115, 116, 114, 101, 97, 109]
  const MIND: Bytes := [109, 105, 110, 100]
  const DIGEST_SIZE := 32

  // The identity of an object: its class and the names that make its path.
  datatype Object = Object(class_: Bytes, stream: Bytes, node: Bytes, session: Bytes, basename: Bytes)
  {
    // Only stream objects have a stream, only session statuses a session.
    predicate Normal() {
      (class_ != STREAM ==> stream == []) && (class_ != MIND ==> session == [])
    }

    predicate NulFree() {
      0 !in class_ && 0 !in stream && 0 !in node && 0 !in session && 0 !in basename
    }
  }

  function Nul(s: Bytes): Bytes { s + [0] }

  // The bytes transferID feeds to SHA-256.
  function Preimage(o: Object, digest: Bytes): Bytes {
    Nul(o.class_) + (if o.class_ == STREAM then Nul(o.stream) else []) + Nul(o.node) +
    (if o.class_ == MIND then Nul(o.session) else []) + o.basename + digest
  }

  function TransferId(hash: Bytes -> Bytes, o: Object, digest: Bytes): Bytes {
    Hex(hash(Preimage(o, digest)))
  }

  // Where the first NUL is determines what is before and after it.
  lemma NulSplits(a: Bytes, x: Bytes, b: Bytes, y: Bytes)
    requires 0 !in a && 0 !in b && Nul(a) + x == Nul(b) + y
    ensures a == b && x == y
  {
    var s, t := Nul(a) + x, Nul(b) + y;
    assert s[|a|] == 0 && forall i :: 0 <= i < |a| ==> s[i] == a[i] && a[i] in a;
    assert t[|b|] == 0 && forall i :: 0 <= i < |b| ==> t[i] == b[i] && b[i] in b;
    assert |a| == |b|;
    assert s[..|a|] == a && t[..|b|] == b;
    assert s[|a| + 1..] == x && t[|b| + 1..] == y;
  }

  lemma TailSplits(a: Bytes, d: Bytes, b: Bytes, e: Bytes)
    requires |d| == |e| && a + d == b + e
    ensures a == b && d == e
  {
    var s, t := a + d, b + e;
    assert s[..|a|] == a && t[..|b|] == b && s[|a|..] == d && t[|b|..] == e;
  }

  // Equal preimages: the same object and the same digest.
  lemma PreimageInjective(o: Object, d: Bytes, p: Object, e: Bytes)
    requires o.Normal() && p.Normal() && o.NulFree() && p.NulFree() && |d| == DIGEST_SIZE && |e| == DIGEST_SIZE
    requires Preimage(o, d) == Preimage(p, e)
    ensures o == p && d == e
  {
    PreimageParts(o, d);
    PreimageParts(p, e);
    NulSplits(o.class_, AfterClass(o, d), p.class_, AfterClass(p, e));
    if o.class_ == STREAM {
      NulSplits(o.stream, AfterStream(o, d), p.stream, AfterStream(p, e));
    } else {
      assert AfterClass(o, d) == AfterStream(o, d) && AfterClass(p, e) == AfterStream(p, e);
    }
    AfterStreamInjective(o, d, p, e);
  }

  lemma Regroups(a: Bytes, b: Bytes, c: Bytes, d: Bytes, e: Bytes, f: Bytes)
    ensures a + b + c + d + e + f == a + (b + (c + (d + (e + f))))
  {
  }

  lemma PreimageParts(o: Object, d: Bytes)
    ensures Preimage(o, d) == Nul(o.class_) + AfterClass(o, d)
  {
    Regroups(Nul(o.class_), if o.class_ == STREAM then Nul(o.stream) else [], Nul(o.node),
             if o.class_ == MIND then Nul(o.session) else [], o.basename, d);
  }

  function AfterClass(o: Object, digest: Bytes): Bytes {
    (if o.class_ == STREAM then Nul(o.stream) else []) + AfterStream(o, digest)
  }

  function AfterStream(o: Object, digest: Bytes): Bytes {
    Nul(o.node) + ((if o.class_ == MIND then Nul(o.session) else []) + (o.basename + digest))
  }

  lemma AfterStreamInjective(o: Object, d: Bytes, p: Object, e: Bytes)
    requires o.Normal() && p.Normal() && o.NulFree() && p.NulFree() && |d| == DIGEST_SIZE && |e| == DIGEST_SIZE
    requires o.class_ == p.class_ && AfterStream(o, d) == AfterStream(p, e)
    ensures o.node == p.node && o.session == p.session && o.basename == p.basename && d == e
  {
    var x := (if o.class_ == MIND then Nul(o.session) else []) + (o.basename + d);
    var y := (if p.class_ == MIND then Nul(p.session) else []) + (p.basename + e);
    NulSplits(o.node, x, p.node, y);
    if o.class_ == MIND {
      NulSplits(o.session, o.basename + d, p.session, p.basename + e);
    } else {
      assert x == o.basename + d && y == p.basename + e;
    }
    TailSplits(o.basename, d, p.basename, e);
  }

  // If the hash does not collide, a transfer id names one object with one content.
  lemma TransferIdInjective(hash: Bytes -> Bytes, o: Object, d: Bytes, p: Object, e: Bytes)
    requires forall x, y :: hash(x) == hash(y) ==> x == y
    requires o.Normal() && p.Normal() && o.NulFree() && p.NulFree() && |d| == DIGEST_SIZE && |e| == DIGEST_SIZE
    requires TransferId(hash, o, d) == TransferId(hash, p, e)
    ensures o == p && d == e
  {
    UnhexOfHex(hash(Preimage(o, d)));
    UnhexOfHex(hash(Preimage(p, e)));
    PreimageInjective(o, d, p, e);
  }

  // -------------------------------------------------------------------- offers

  datatype Offer = Offer(id: Bytes, obj: Object, size: nat, digest: Bytes)

  predicate Extra(class_: Bytes) { class_ == STREAM || class_ == MIND }

  function OfferItems(o: Offer, text: Bytes): seq<Item> {
    [S(o.id), S(o.obj.class_)] + (if o.obj.class_ == STREAM then [S(o.obj.stream)] else []) + [S(o.obj.node)] +
    (if o.obj.class_ == MIND then [S(o.obj.session)] else []) + [S(o.obj.basename), U(o.size), S(text)]
  }

  // The number of items of an offer, and the kind of the j-th.
  function OfferLength(class_: Bytes): nat { if Extra(class_) then 7 else 6 }

  function OfferKind(class_: Bytes, j: nat): Kind { if j == OfferLength(class_) - 2 then Int else Str }

  // f carries the offer o: its text of the digest decodes to the digest, and its id
  // is the one of the object.
  ghost predicate IsOffer(hash: Bytes -> Bytes, f: Frame, o: Offer) {
    && o.obj.Normal() && |o.digest| == DIGEST_SIZE && o.id == TransferId(hash, o.obj, o.digest)
    && exists text :: Holds(f.payload, OfferItems(o, text)) && Unhex(text) == Some(o.digest)
  }

  predicate OfferFits(o: Offer) {
    && |o.id| < LIMIT && |o.obj.class_| < LIMIT && |o.obj.stream| < LIMIT && |o.obj.node| < LIMIT && |o.obj.session| < LIMIT
    && |o.obj.basename| < LIMIT && o.size < LIMIT
  }

  method OfferFrame(hash: Bytes -> Bytes, o: Offer) returns (f: Frame)
    requires OfferFits(o) && o.obj.Normal() && |o.digest| == DIGEST_SIZE && o.id == TransferId(hash, o.obj, o.digest)
    ensures f.typ == OFFER && Holds(f.payload, OfferItems(o, Hex(o.digest))) && IsOffer(hash, f, o)
  {
    var w := new Writer();
    w.Str(o.id);
    w.Str(o.obj.class_);
    if o.obj.class_ == STREAM {
      w.Str(o.obj.stream);
    }
    ghost var head := [S(o.id), S(o.obj.class_)] + (if o.obj.class_ == STREAM then [S(o.obj.stream)] else []) + [S(o.obj.node)];
    w.Str(o.obj.node);
    assert w.items == head;
    if o.obj.class_ == MIND {
      w.Str(o.obj.session);
    }
    ghost var names := head + if o.obj.class_ == MIND then [S(o.obj.session)] else [];
    assert w.items == names;
    w.Str(o.obj.basename);
    w.U64(o.size);
    UnhexOfHex(o.digest);
    w.Str(Hex(o.digest));
    assert w.items == names + [S(o.obj.basename), U(o.size), S(Hex(o.digest))] == OfferItems(o, Hex(o.digest));
    f := Frame(OFFER, w.e.b);
  }

  // A reader of offers that has got `read` of the payload p gets no further.
  ghost predicate OfferStuck(p: Bytes, read: seq<Item>) {
    && Begins(p, read)
    && (|read| < 2 ==> (forall j :: 0 <= j < |read| ==> read[j].S?) && DecodeItem(Str, p[|Encode(read)|..]).None?)
    && (|read| >= 2 ==>
          && read[0].S? && read[1].S? && |read| <= OfferLength(read[1].s)
          && (forall j :: 0 <= j < |read| ==> KindOf(read[j]) == OfferKind(read[1].s, j))
          && if |read| < OfferLength(read[1].s) then DecodeItem(OfferKind(read[1].s, |read|), p[|Encode(read)|..]).None?
             else p != Encode(read))
  }

  lemma OfferShape(o: Offer, text: Bytes)
    ensures var x := OfferItems(o, text);
      && |x| == OfferLength(o.obj.class_) && x[0] == S(o.id) && x[1] == S(o.obj.class_)
      && forall j :: 0 <= j < |x| ==> KindOf(x[j]) == OfferKind(o.obj.class_, j)
  {
  }

  lemma NoOffer(hash: Bytes -> Bytes, f: Frame, read: seq<Item>)
    requires OfferStuck(f.payload, read)
    ensures forall o :: !IsOffer(hash, f, o)
  {
    forall o
      ensures !IsOffer(hash, f, o)
    {
      if IsOffer(hash, f, o) {
        var text :| Holds(f.payload, OfferItems(o, text)) && Unhex(text) == Some(o.digest);
        var x := OfferItems(o, text);
        OfferShape(o, text);
        if |read| >= 2 {
          SameHead(f.payload, read, x);
        }
        Refuted(f.payload, read, x);
      }
    }
  }

  // The first two strings of a payload are what they are.
  lemma SameHead(p: Bytes, read: seq<Item>, x: seq<Item>)
    requires Begins(p, read) && Holds(p, x) && |read| >= 2 && |x| >= 2
    requires read[0].S? && read[1].S? && x[0].S? && x[1].S?
    ensures read[0] == x[0] && read[1] == x[1]
  {
    assert x == x[..2] + x[2..] && read == read[..2] + read[2..];
    assert x[..2][0] == x[0] && x[..2][1] == x[1] && read[..2][0] == read[0] && read[..2][1] == read[1];
    BeginsFirst(p, x[..2], x[2..]);
    BeginsLess(p, read[..2], read[2..]);
    SameKinds(read[..2], x[..2]);
    BeginsOnce(p, read[..2], x[..2]);
  }

  lemma BeginsLess(p: Bytes, x: seq<Item>, y: seq<Item>)
    requires Begins(p, x + y)
    ensures Begins(p, x)
  {
    EncodeJoins(x, y);
    assert forall j :: j in x ==> j in x + y;
  }

  // One payload, one offer.
  lemma OfferOnce(hash: Bytes -> Bytes, f: Frame, a: Offer, b: Offer)
    requires IsOffer(hash, f, a) && IsOffer(hash, f, b)
    ensures a == b
  {
    var s :| Holds(f.payload, OfferItems(a, s)) && Unhex(s) == Some(a.digest);
    var t :| Holds(f.payload, OfferItems(b, t)) && Unhex(t) == Some(b.digest);
    SameOffer(f.payload, a, s, b, t);
  }

  lemma SameOffer(p: Bytes, a: Offer, s: Bytes, b: Offer, t: Bytes)
    requires Holds(p, OfferItems(a, s)) && Holds(p, OfferItems(b, t)) && a.obj.Normal() && b.obj.Normal()
    ensures a.id == b.id && a.obj == b.obj && a.size == b.size && s == t
  {
    var x, y := OfferItems(a, s), OfferItems(b, t);
    OfferShape(a, s);
    OfferShape(b, t);
    SameHead(p, x, y);
    SameKinds(x, y);
    BeginsOnce(p, x, y);
    var n := OfferLength(a.obj.class_);
    assert x[n - 1] == y[n - 1] && x[n - 2] == y[n - 2] && x[n - 3] == y[n - 3] && x[2] == y[2] && x[3] == y[3];
  }

  // A reader has got a whole payload whose digest or id is not an offer's.
  lemma BadOffer(hash: Bytes -> Bytes, f: Frame, o: Offer, text: Bytes)
    requires Holds(f.payload, OfferItems(o, text)) && o.obj.Normal()
    requires Unhex(text) != Some(o.digest) || |o.digest| != DIGEST_SIZE || o.id != TransferId(hash, o.obj, o.digest)
    requires Unhex(text).Some? ==> o.digest == Unhex(text).value
    ensures forall p :: !IsOffer(hash, f, p)
  {
    forall p
      ensures !IsOffer(hash, f, p)
    {
      if IsOffer(hash, f, p) {
        var t :| Holds(f.payload, OfferItems(p, t)) && Unhex(t) == Some(p.digest);
        SameOffer(f.payload, o, text, p, t);
      }
    }
  }

  // Class, stream and node.
  method DecodePlace(d: Decoder) returns (r: Option<(Bytes, Bytes, Bytes)>)
    requires d.Valid() && |d.read| == 1 && d.read[0].S?
    modifies d
    ensures r.None? ==> OfferStuck(d.b, d.read)
    ensures r.Some? ==>
      && d.Valid() && (r.value.0 != STREAM ==> r.value.1 == [])
      && d.read == [old(d.read)[0], S(r.value.0)] + (if r.value.0 == STREAM then [S(r.value.1)] else []) + [S(r.value.2)]
  {
    var class_ := d.Str();
    if class_.None? {
      return None;
    }
    var stream := Some([]);
    if class_.value == STREAM {
      stream := d.Str();
      if stream.None? {
        return None;
      }
    }
    var node := d.Str();
    if node.None? {
      return None;
    }
    r := Some((class_.value, stream.value, node.value));
  }

  // Session and basename.
  method DecodeName(d: Decoder, class_: Bytes) returns (r: Option<(Bytes, Bytes)>)
    requires d.Valid() && |d.read| == (if class_ == STREAM then 4 else 3) && d.read[1] == S(class_)
    requires forall j :: 0 <= j < |d.read| ==> d.read[j].S?
    modifies d
    ensures r.None? ==> OfferStuck(d.b, d.read)
    ensures r.Some? ==>
      && d.Valid() && (class_ != MIND ==> r.value.0 == [])
      && d.read == old(d.read) + (if class_ == MIND then [S(r.value.0)] else []) + [S(r.value.1)]
  {
    var session := Some([]);
    if class_ == MIND {
      session := d.Str();
      if session.None? {
        return None;
      }
    }
    var basename := d.Str();
    if basename.None? {
      return None;
    }
    r := Some((session.value, basename.value));
  }

  // Size, digest text, and the end of the payload.
  method DecodeContent(d: Decoder) returns (r: Option<(nat, Bytes)>)
    requires d.Valid() && |d.read| >= 2 && d.read[1].S? && |d.read| == OfferLength(d.read[1].s) - 2
    requires forall j :: 0 <= j < |d.read| ==> d.read[j].S?
    modifies d
    ensures r.None? ==> OfferStuck(d.b, d.read)
    ensures r.Some? ==> d.read == old(d.read) + [U(r.value.0), S(r.value.1)] && Holds(d.b, d.read)
  {
    var size := d.U64();
    if size.None? {
      d.Seen();
      return None;
    }
    var text := d.Str();
    if text.None? {
      return None;
    }
    var done := d.Done();
    if !done {
      return None;
    }
    r := Some((size.value, text.value));
  }

  method DecodeOffer(hash: Bytes -> Bytes, f: Frame) returns (r: Option<Offer>)
    ensures r.Some? ==> IsOffer(hash, f, r.value)
    ensures r.None? ==> forall o :: !IsOffer(hash, f, o)
  {
    var d := new Decoder(f.payload);
    var id := d.Str();
    if id.None? {
      NoOffer(hash, f, d.read);
      return None;
    }
    var place := DecodePlace(d);
    if place.None? {
      NoOffer(hash, f, d.read);
      return None;
    }
    var name := DecodeName(d, place.value.0);
    if name.None? {
      NoOffer(hash, f, d.read);
      return None;
    }
    var content := DecodeContent(d);
    if content.None? {
      NoOffer(hash, f, d.read);
      return None;
    }
    var digest := Unhex(content.value.1);
    var obj := Object(place.value.0, place.value.1, place.value.2, name.value.0, name.value.1);
    var o := Offer(id.value, obj, content.value.0, if digest.Some? then digest.value else []);
    assert d.read == OfferItems(o, content.value.1);
    if digest.None? || |o.digest| != DIGEST_SIZE || o.id != TransferId(hash, o.obj, o.digest) {
      BadOffer(hash, f, o, content.value.1);
      return None;
    }
    r := Some(o);
  }
}
