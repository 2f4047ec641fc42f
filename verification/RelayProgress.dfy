/**
  What the relay is for: an acceptable file offered over a quiet link ends at the
  peer's path, byte for byte, and only then is it known and its disposable source
  gone; a file the peer may not store is refused and stays where it is.
*/
module RelayProgress {
  import opened Relay
  import opened RelayRuns
  import opened RelaySafety
  import opened Wrappers

  // The link with p at side x and q at the other.
  function Ends(x: Side, p: Peer, q: Peer): Link { if x == A then Link(p, q) else Link(q, p) }

  // Nothing is under way at p.
  predicate Rests(p: Peer) {
    p.fatal.None? && p.sender.SIdle? && p.responses == [] && p.out == [] && p.reader == Reader(None, None, Free)
  }

  ghost predicate Becomes(x: Side, p: Peer, q: Peer, p': Peer, q': Peer) {
    exists steps :: Leads(Ends(x, p, q), steps, Ends(x, p', q'))
  }

  lemma StaysSo(x: Side, p: Peer, q: Peer)
    ensures Becomes(x, p, q, p, q)
  {
    assert Leads(Ends(x, p, q), [], Ends(x, p, q));
  }

  lemma Then(x: Side, p: Peer, q: Peer, p': Peer, q': Peer, s: Step, p'': Peer, q'': Peer)
    requires Becomes(x, p, q, p', q')
    requires Possible(Ends(x, p', q'), s) && Fits(Ends(x, p', q'), s) && After(Ends(x, p', q'), s) == Ends(x, p'', q'')
    ensures Becomes(x, p, q, p'', q'')
  {
    var steps :| Leads(Ends(x, p, q), steps, Ends(x, p', q'));
    LeadsExtends(Ends(x, p, q), steps, Ends(x, p', q'), s);
  }

  lemma ThenOwn(x: Side, p: Peer, q: Peer, p': Peer, q': Peer, a: Action)
    requires Becomes(x, p, q, p', q') && Can(p', a) && (a.DoConsider? ==> |p'.disk.files[a.k]| <= p'.cfg.maxObject)
    ensures Becomes(x, p, q, Do(p', a), q')
  {
    Then(x, p, q, p', q', Own(x, a), Do(p', a), q');
  }

  lemma ThenPeer(x: Side, p: Peer, q: Peer, p': Peer, q': Peer, a: Action)
    requires Becomes(x, p, q, p', q') && Can(q', a) && !a.DoConsider?
    ensures Becomes(x, p, q, p', Do(q', a))
  {
    Then(x, p, q, p', q', Own(Other(x), a), p', Do(q', a));
  }

  lemma ThenReads(x: Side, p: Peer, q: Peer, p': Peer, q': Peer)
    requires Becomes(x, p, q, p', q') && p'.fatal.None? && p'.reader.have.None? && q'.out != []
    ensures Becomes(x, p, q, OnFrame(p', q'.out[0], false), q'.(out := q'.out[1..]))
  {
    Then(x, p, q, p', q', Read(x, false), OnFrame(p', q'.out[0], false), q'.(out := q'.out[1..]));
  }

  lemma ThenPeerReads(x: Side, p: Peer, q: Peer, p': Peer, q': Peer)
    requires Becomes(x, p, q, p', q') && q'.fatal.None? && q'.reader.have.None? && p'.out != []
    ensures Becomes(x, p, q, p'.(out := p'.out[1..]), OnFrame(q', p'.out[0], false))
  {
    Then(x, p, q, p', q', Read(Other(x), false), p'.(out := p'.out[1..]), OnFrame(q', p'.out[0], false));
  }

  // ------------------------------------------------------------- what is offered

  // Why p offers the file at k: its class is negotiated, it is neither too large, too
  // old nor too far ahead, and it neither came from the peer, nor was rejected by it,
  // nor is known to be there already.
  predicate Offerable(p: Peer, k: Key, age: Age)
    requires k in p.disk.files
  {
    var id := TransferId(k, Sha256(p.disk.files[k]));
    && (k.class_ == Stream ==> p.cfg.minor >= 1) && (k.class_ == Mind ==> p.cfg.minor >= 2)
    && (k.class_ == Stream || k.class_ == Mind ==> !age.expired && !age.future)
    && |p.disk.files[k]| <= p.cfg.maxObject
    && !(k in p.memory.origins && p.memory.origins[k] == id)
    && !(k in p.memory.rejected && p.memory.rejected[k] == id)
    && !(k in p.memory.known && p.memory.known[k] == id)
  }

  // A spool file goes once the peer has it: at the serving end, and at the dialling end
  // if it is an acknowledgement or a bounce.
  predicate GoesOnceStored(p: Peer, k: Key, fire: bool) {
    k.class_ == Spool && (p.cfg.role == Serve || fire)
  }

  // An idle sender offers exactly the offerable.
  lemma OffersExact(p: Peer, k: Key, fire: bool, age: Age)
    requires p.sender.SIdle? && k in p.disk.files
    ensures var p' := Consider(p, k, fire, age); var o := Offer(TransferId(k, Sha256(p.disk.files[k])), |p.disk.files[k]|);
      if Offerable(p, k, age)
      then p' == p.(sender := SFirst(o, p.disk.files[k], GoesOnceStored(p, k, fire)), out := p.out + [OfferFrame(o)])
      else p'.sender.SIdle? && forall f :: f in p'.out[|p.out|..] ==> f == Error(ObjectTooLarge)
  {
    if !Offerable(p, k, age) {
      var p' := Consider(p, k, fire, age);
      assert p'.out == p.out || p'.out == p.out + [Error(ObjectTooLarge)];
    }
  }

  // A file the peer is known to have is unlinked when it turns up again, if it is one
  // that goes; nothing else is but what is too far ahead.
  lemma ReappearedGoes(p: Peer, k: Key, fire: bool, age: Age, j: Key)
    requires p.sender.SIdle? && k in p.disk.files && |p.disk.files[k]| <= p.cfg.maxObject && !Epochal(k)
    requires var id := TransferId(k, Sha256(p.disk.files[k])); !Says(p.memory.origins, id) && !Says(p.memory.rejected, id)
    ensures j in Consider(p, k, fire, age).disk.files <==>
      j in p.disk.files && !(j == k && GoesOnceStored(p, k, fire) && k in p.memory.known && p.memory.known[k] == TransferId(k, Sha256(p.disk.files[k])))
  {
  }

  // ------------------------------------------------------------ what is accepted

  // The peer takes the file: within its limits, and on its side of the link.
  predicate Acceptable(q: Peer, k: Key, size: nat) {
    && (k.class_ == Stream ==> q.cfg.minor >= 1) && (k.class_ == Mind ==> q.cfg.minor >= 2)
    && size <= q.cfg.maxObject && OnItsSide(q.cfg, k)
  }

  // Mail goes towards the node it is for; what a node says of itself comes from it. The
  // serving end has the downstream node and takes all presence files but its own.
  predicate OnItsSide(cfg: Config, k: Key) {
    var downstreams := k.node == cfg.downstream;
    match k.class_
    case Spool => if cfg.role == Dial then downstreams else !downstreams
    case Presence => cfg.role == Dial || downstreams
    case Stream => if cfg.role == Serve then downstreams else !downstreams
    case Mind => if cfg.role == Serve then downstreams else !downstreams
  }

  lemma AcceptsExact(q: Peer, o: Offer, expired: bool)
    ensures Refusal(q.cfg, o, expired).None? <==> Acceptable(q, o.id.key, o.size) && !(expired && (o.id.key.class_ == Stream || o.id.key.class_ == Mind))
  {
  }

  // Of spool, stream and status files, one end of a link accepts exactly those the
  // other does not.
  lemma OneEndAccepts(dial: Config, serve: Config, k: Key)
    requires dial.role == Dial && serve.role == Serve && dial.downstream == serve.downstream && k.class_ != Presence
    ensures HasDestination(dial, k) <==> !HasDestination(serve, k)
  {
  }

  // A PING is answered with its own epoch, whatever else is under way.
  lemma PingAnswered(p: Peer, epoch: nat, expired: bool)
    ensures OnFrame(p, Ping(epoch), expired) == p.(out := p.out + [Pong(epoch)])
  {
  }

  // ------------------------------------------------------------- a whole transfer

  function OfferOf(k: Key, b: Bytes): Offer { Offer(TransferId(k, Sha256(b)), |b|) }

  // The sender has come to the end of the transfer.
  function Delivered(p: Peer, k: Key, b: Bytes, goes: bool): Peer {
    p.(memory := p.memory.(known := p.memory.known[k := OfferOf(k, b).id], rejected := p.memory.rejected - {k}),
       disk := if goes && k in p.disk.files && p.disk.files[k] == b then p.disk.(files := p.disk.files - {k}) else p.disk)
  }

  lemma FinishDelivers(p: Peer, k: Key, b: Bytes, goes: bool)
    requires p.sender.SIdle?
    ensures Finish(p.(sender := SDone(OfferOf(k, b), goes))) == Delivered(p, k, b, goes)
  {
  }

  // Up to the answer to the OFFER.
  lemma Offers(x: Side, p: Peer, q: Peer, k: Key, b: Bytes, fire: bool)
    requires Rests(p) && Rests(q) && k in p.disk.files && p.disk.files[k] == b
    requires Offerable(p, k, Age(false, false)) && Acceptable(q, k, |b|)
    ensures var o, goes := OfferOf(k, b), GoesOnceStored(p, k, fire); var p1 := p.(sender := SFirst(o, b, goes));
      if k in q.disk.files && q.disk.files[k] == b
      then Becomes(x, p, q, p1, q.(memory := q.memory.(origins := q.memory.origins[k := o.id]), reader := Reader(None, Some(o), Free), out := [Have(o.id)]))
      else Becomes(x, p, q, p1, q.(reader := Reader(Some(o), None, Free), out := [Need(o.id)]))
  {
    var o, goes := OfferOf(k, b), GoesOnceStored(p, k, fire);
    StaysSo(x, p, q);
    OffersExact(p, k, fire, Age(false, false));
    ThenOwn(x, p, q, p, q, DoConsider(k, fire, Age(false, false)));
    var p1 := p.(sender := SFirst(o, b, goes), out := [OfferFrame(o)]);
    assert p.out + [OfferFrame(o)] == [OfferFrame(o)];
    AcceptsExact(q, o, false);
    ThenPeerReads(x, p, q, p1, q);
    assert p1.out[1..] == p.out && q.out + [Have(o.id)] == [Have(o.id)] && q.out + [Need(o.id)] == [Need(o.id)];
    assert p1.(out := p.out) == p.(sender := SFirst(o, b, goes));
  }

  // The peer asks for the bytes, and installs them.
  lemma SendsBytes(x: Side, p: Peer, q: Peer, p0: Peer, q0: Peer, o: Offer, b: Bytes, goes: bool)
    requires Rests(p) && Rests(q)
    requires Becomes(x, p0, q0, p.(sender := SFirst(o, b, goes)), q.(reader := Reader(Some(o), None, Free), out := [Need(o.id)]))
    ensures Becomes(x, p0, q0, p.(sender := SSecond(o, true, goes)), q.(reader := Reader(None, None, Installing(o, b))))
  {
    var p1, q1 := p.(sender := SFirst(o, b, goes)), q.(reader := Reader(Some(o), None, Free));
    ThenReads(x, p0, q0, p1, q1.(out := [Need(o.id)]));
    assert [Need(o.id)][1..] == q.out && p.responses + [Need(o.id)] == [Need(o.id)];
    var p2 := p1.(responses := [Need(o.id)]);
    ThenOwn(x, p0, q0, p2, q1, DoFirst);
    assert [Need(o.id)][1..] == p.responses;
    var p3 := p.(sender := SSend(o, b, goes));
    ThenOwn(x, p0, q0, p3, q1, DoData);
    var p4 := p.(sender := SSecond(o, true, goes), out := [DataFrame(o.id, b)]);
    assert p.out + [DataFrame(o.id, b)] == [DataFrame(o.id, b)];
    ThenPeerReads(x, p0, q0, p4, q1);
    assert p4.out[1..] == p.out;
  }

  // STORED reaches the sender.
  lemma EndsWell(x: Side, p: Peer, q: Peer, p0: Peer, q0: Peer, k: Key, b: Bytes, needed: bool, goes: bool)
    requires Rests(p) && Rests(q)
    requires Becomes(x, p0, q0, p.(sender := SSecond(OfferOf(k, b), needed, goes)), q.(out := [Stored(OfferOf(k, b).id)]))
    ensures Becomes(x, p0, q0, Delivered(p, k, b, goes), q)
  {
    var o := OfferOf(k, b);
    var p1 := p.(sender := SSecond(o, needed, goes));
    ThenReads(x, p0, q0, p1, q.(out := [Stored(o.id)]));
    assert [Stored(o.id)][1..] == q.out && p.responses + [Stored(o.id)] == [Stored(o.id)];
    ThenOwn(x, p0, q0, p1.(responses := [Stored(o.id)]), q, DoSecond);
    assert [Stored(o.id)][1..] == p.responses;
    ThenOwn(x, p0, q0, p.(sender := SDone(o, goes)), q, DoFinish);
    FinishDelivers(p, k, b, goes);
  }

  // ERROR reaches the sender.
  lemma EndsBadly(x: Side, p: Peer, q: Peer, p0: Peer, q0: Peer, k: Key, b: Bytes, goes: bool, code: Code)
    requires Rests(p) && Rests(q)
    requires Becomes(x, p0, q0, p.(sender := SSecond(OfferOf(k, b), true, goes)), q.(out := [Error(code)]))
    ensures Becomes(x, p0, q0, p.(memory := p.memory.(rejected := p.memory.rejected[k := OfferOf(k, b).id])), q)
  {
    var p1, e := p.(sender := SSecond(OfferOf(k, b), true, goes)), Error(code);
    ThenReads(x, p0, q0, p1, q.(out := [e]));
    assert [e][1..] == q.out && p.responses + [e] == [e];
    ThenOwn(x, p0, q0, p1.(responses := [e]), q, DoSecond);
    assert [e][1..] == p.responses;
  }

  // The peer as it is with the file.
  function Holding(q: Peer, k: Key, b: Bytes): Peer {
    q.(memory := q.memory.(origins := q.memory.origins[k := OfferOf(k, b).id]), disk := Place(q.disk, k, b))
  }

  lemma Installs(x: Side, p: Peer, q: Peer, p0: Peer, q0: Peer, k: Key, b: Bytes, goes: bool)
    requires Rests(p) && Rests(q) && (k.class_ == Presence || k !in q.disk.files)
    requires Becomes(x, p0, q0, p.(sender := SSecond(OfferOf(k, b), true, goes)), q.(reader := Reader(None, None, Installing(OfferOf(k, b), b))))
    ensures Becomes(x, p0, q0, Delivered(p, k, b, goes), Holding(q, k, b))
  {
    var o := OfferOf(k, b);
    var p1, q1 := p.(sender := SSecond(o, true, goes)), q.(reader := Reader(None, None, Installing(o, b)));
    var v := Verdict(false, false, true);
    ThenPeer(x, p0, q0, p1, q1, DoInstall(v));
    var q2 := Holding(q, k, b).(reader := Reader(None, None, Replying(Stored(o.id))));
    assert Install(q1, v) == q2;
    ThenPeer(x, p0, q0, p1, q2, DoReply);
    var q3 := Holding(q, k, b).(out := [Stored(o.id)]);
    assert q.out + [Stored(o.id)] == [Stored(o.id)];
    assert Reply(q2) == q3;
    EndsWell(x, p, Holding(q, k, b), p0, q0, k, b, true, goes);
  }

  // A file over a quiet link: some run ends with the very bytes at the peer's path,
  // the file known and no more rejected at the sender, its source gone exactly if it is
  // one that goes, and the link quiet again.
  lemma FileArrives(x: Side, p: Peer, q: Peer, k: Key, b: Bytes, fire: bool)
    requires Rests(p) && Rests(q) && k in p.disk.files && p.disk.files[k] == b
    requires Offerable(p, k, Age(false, false)) && Acceptable(q, k, |b|)
    requires k.class_ == Presence || k !in q.disk.files || q.disk.files[k] == b
    ensures exists p', q' ::
      && Becomes(x, p, q, p', q') && Rests(p') && Rests(q')
      && k in q'.disk.files && q'.disk.files[k] == b && q'.memory.origins == q.memory.origins[k := TransferId(k, Sha256(b))]
      && p'.memory.known == p.memory.known[k := TransferId(k, Sha256(b))] && k !in p'.memory.rejected
      && (k in p'.disk.files <==> !GoesOnceStored(p, k, fire))
  {
    var o, goes := OfferOf(k, b), GoesOnceStored(p, k, fire);
    Offers(x, p, q, k, b, fire);
    if k in q.disk.files && q.disk.files[k] == b {
      Had(x, p, q, k, b, goes);
    } else {
      SendsBytes(x, p, q, p, q, o, b, goes);
      Installs(x, p, q, p, q, k, b, goes);
      assert Rests(Delivered(p, k, b, goes)) && Rests(Holding(q, k, b));
    }
  }

  // The peer has the file: HAVE and STORED.
  lemma Had(x: Side, p: Peer, q: Peer, k: Key, b: Bytes, goes: bool)
    requires Rests(p) && Rests(q)
    requires var o := OfferOf(k, b); var q1 := q.(memory := q.memory.(origins := q.memory.origins[k := o.id]));
      Becomes(x, p, q, p.(sender := SFirst(o, b, goes)), q1.(reader := Reader(None, Some(o), Free), out := [Have(o.id)]))
    ensures var q1 := q.(memory := q.memory.(origins := q.memory.origins[k := OfferOf(k, b).id]));
      Becomes(x, p, q, Delivered(p, k, b, goes), q1) && Rests(Delivered(p, k, b, goes)) && Rests(q1)
  {
    var o := OfferOf(k, b);
    var q1 := q.(memory := q.memory.(origins := q.memory.origins[k := o.id]));
    var p1, q2 := p.(sender := SFirst(o, b, goes)), q1.(reader := Reader(None, Some(o), Free), out := [Have(o.id)]);
    ThenReads(x, p, q, p1, q2);
    assert [Have(o.id)][1..] == q.out && p.responses + [Have(o.id)] == [Have(o.id)];
    var p2, q3 := p1.(responses := [Have(o.id)]), q2.(out := []);
    ThenOwn(x, p, q, p2, q3, DoFirst);
    assert [Have(o.id)][1..] == p.responses;
    var p3 := p.(sender := SSecond(o, false, goes));
    ThenPeer(x, p, q, p3, q3, DoFinishHave);
    assert [] + [Stored(o.id)] == [Stored(o.id)];
    assert FinishHave(q3) == q1.(out := [Stored(o.id)]);
    EndsWell(x, p, q1, p, q, k, b, false, goes);
  }

  // A path that holds other bytes: the peer keeps them and refuses, and the sender
  // keeps its file and remembers not to offer it again.
  lemma ConflictRefused(x: Side, p: Peer, q: Peer, k: Key, b: Bytes, fire: bool)
    requires Rests(p) && Rests(q) && k in p.disk.files && p.disk.files[k] == b
    requires Offerable(p, k, Age(false, false)) && Acceptable(q, k, |b|)
    requires k.class_ != Presence && k in q.disk.files && q.disk.files[k] != b
    ensures Becomes(x, p, q, p.(memory := p.memory.(rejected := p.memory.rejected[k := TransferId(k, Sha256(b))])), q)
  {
    var o, goes := OfferOf(k, b), GoesOnceStored(p, k, fire);
    Offers(x, p, q, k, b, fire);
    SendsBytes(x, p, q, p, q, o, b, goes);
    var p1, q1 := p.(sender := SSecond(o, true, goes)), q.(reader := Reader(None, None, Installing(o, b)));
    var v, e := Verdict(false, false, true), Error(ImmutableConflict);
    ThenPeer(x, p, q, p1, q1, DoInstall(v));
    var q2 := q.(reader := Reader(None, None, Replying(e)));
    assert Install(q1, v) == q2;
    ThenPeer(x, p, q, p1, q2, DoReply);
    assert q.out + [e] == [e];
    EndsBadly(x, p, q, p, q, k, b, goes, ImmutableConflict);
  }
}
