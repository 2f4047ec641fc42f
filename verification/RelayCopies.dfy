/**
  What the relay may do to files, in every run, oversized files included: a copy is
  unlinked only after the peer held the same bytes at the same path, and an
  immutable object is never overwritten.
*/
module RelayCopies {
  import opened Relay

  ghost predicate Remembers(d: Disk) {
    forall k :: k in d.files ==> (k, d.files[k]) in d.held
  }

  // y held the bytes id stands for. (A presence file may have given way to one that is
  // newer than the one offered.)
  predicate Evidence(y: Peer, id: TransferId) {
    id.key.class_ != Presence ==> (id.key, id.digest.of) in y.disk.held
  }

  // All that y told x, is telling it or is about to tell it is true.
  ghost predicate Truthful(x: Peer, y: Peer) {
    && (forall f :: f in y.out && (f.Stored? || f.Have?) ==> Evidence(y, f.id))
    && (forall f :: f in x.responses && (f.Stored? || f.Have?) ==> Evidence(y, f.id))
    && (y.reader.have.Some? ==> Evidence(y, y.reader.have.value.id))
    && (y.reader.job.Replying? && y.reader.job.reply.Stored? ==> Evidence(y, y.reader.job.reply.id))
    && (y.reader.job.Replying? ==> !y.reader.job.reply.Have?)
    && (forall k :: k in y.memory.origins ==> y.memory.origins[k].key == k && Evidence(y, y.memory.origins[k]))
    && (forall k :: k in x.memory.known ==> x.memory.known[k].key == k && Evidence(y, x.memory.known[k]))
    && (x.sender.SDone? ==> Evidence(y, x.sender.o.id))
  }

  ghost predicate Careful(x: Peer) {
    && Remembers(x.disk)
    && (!x.sender.SIdle? && x.sender.del ==> x.sender.o.id.key.class_ == Spool)
  }

  ghost predicate Copies(l: Link) {
    && Careful(l.a) && Careful(l.b)
    && Truthful(l.a, l.b) && Truthful(l.b, l.a)
  }

  // What a step of x leaves alone as seen from y's promises.
  ghost predicate KeepsHeld(x: Peer, x': Peer) {
    x.disk.held <= x'.disk.held
  }

  lemma OwnCareful(x: Peer, a: Action)
    requires Careful(x) && Can(x, a)
    ensures Careful(Do(x, a)) && KeepsHeld(x, Do(x, a))
  {
  }

  // x acts on what y said.
  lemma ListenerTruthful(x: Peer, y: Peer, a: Action)
    requires Truthful(x, y) && Can(x, a)
    ensures Truthful(Do(x, a), y)
  {
    if a.DoFirst? || a.DoSecond? {
      assert x.responses[0] in x.responses;
    }
  }

  lemma InstallTruthful(x: Peer, y: Peer, v: Verdict)
    requires Truthful(y, x) && Remembers(x.disk) && Can(x, DoInstall(v))
    ensures Truthful(y, Install(x, v))
  {
    OwnHeld(x, DoInstall(v));
  }

  lemma OwnHeld(x: Peer, a: Action)
    requires Can(x, a)
    ensures KeepsHeld(x, Do(x, a))
  {
  }

  // The frames x adds to what y will hear are true.
  lemma SpeakerTruthful(x: Peer, y: Peer, a: Action)
    requires Truthful(y, x) && Remembers(x.disk) && Can(x, a)
    ensures Truthful(y, Do(x, a))
  {
    OwnHeld(x, a);
    if a.DoInstall? {
      InstallTruthful(x, y, a.v);
    } else {
      WritesTruth(x, y, a);
    }
  }

  // What a step other than the installer's writes, it may write.
  lemma WritesTruth(x: Peer, y: Peer, a: Action)
    requires Truthful(y, x) && Can(x, a) && !a.DoInstall?
    ensures Truthful(y, Do(x, a))
  {
    var x' := Do(x, a);
    OwnHeld(x, a);
    assert x'.memory.origins == x.memory.origins;
    assert x'.reader.have.None? || x'.reader.have == x.reader.have;
    assert x'.reader.job.Free? || x'.reader.job == x.reader.job;
    forall f | f in x'.out && f !in x.out && (f.Stored? || f.Have?)
      ensures Evidence(x, f.id)
    {
      assert a.DoReply? || a.DoFinishHave?;
    }
  }

  // x hears the next frame of y.
  lemma HearsTruth(x: Peer, y: Peer, expired: bool)
    requires Truthful(x, y) && y.out != []
    ensures Truthful(OnFrame(x, y.out[0], expired), y.(out := y.out[1..]))
  {
    var x', f := OnFrame(x, y.out[0], expired), y.out[0];
    assert f in y.out;
    assert forall g :: g in y.out[1..] ==> g in y.out;
    assert x'.memory.known == x.memory.known && x'.sender == x.sender;
    assert x'.responses == x.responses || x'.responses == x.responses + [f];
  }

  // x answers an OFFER of y: HAVE only for what it holds.
  lemma AnswersTruth(x: Peer, y: Peer, f: Frame, expired: bool)
    requires Truthful(y, x) && Remembers(x.disk)
    ensures Truthful(y, OnFrame(x, f, expired))
  {
    var x' := OnFrame(x, f, expired);
    assert x'.disk == x.disk;
    if f.OfferFrame? && x'.reader.have != x.reader.have {
      assert (f.o.id.key, x.disk.files[f.o.id.key]) in x.disk.held;
    }
    assert x'.reader.job.Replying? ==> x'.reader.job == x.reader.job;
  }

  lemma ShorterTruth(y: Peer, x: Peer)
    requires Truthful(y, x) && y.out != []
    ensures Truthful(y.(out := y.out[1..]), x)
  {
  }

  lemma ReadTruthful(x: Peer, y: Peer, expired: bool)
    requires Truthful(x, y) && Truthful(y, x) && Careful(x) && y.out != []
    ensures var x', y' := OnFrame(x, y.out[0], expired), y.(out := y.out[1..]);
      Truthful(x', y') && Truthful(y', x') && Careful(x')
  {
    HearsTruth(x, y, expired);
    AnswersTruth(x, y, y.out[0], expired);
    ShorterTruth(y, OnFrame(x, y.out[0], expired));
    assert OnFrame(x, y.out[0], expired).disk == x.disk && OnFrame(x, y.out[0], expired).sender == x.sender;
  }

  lemma CopiesKept(l: Link, s: Step)
    requires Copies(l) && Possible(l, s)
    ensures Copies(After(l, s))
  {
    var x, y := At(l, s.x), At(l, Other(s.x));
    match s
    case Own(_, a) =>
      OwnCareful(x, a);
      ListenerTruthful(x, y, a);
      SpeakerTruthful(x, y, a);
    case Read(_, expired) => ReadTruthful(x, y, expired);
  }

  ghost predicate Leads(l: Link, steps: seq<Step>, m: Link)
    decreases |steps|
  {
    if steps == [] then l == m
    else Possible(l, steps[0]) && Leads(After(l, steps[0]), steps[1..], m)
  }

  ghost predicate Reachable(m: Link) {
    exists l, steps :: Initial(l) && Leads(l, steps, m)
  }

  lemma {:induction false} CopiesRun(l: Link, steps: seq<Step>, m: Link)
    requires Copies(l) && Leads(l, steps, m)
    ensures Copies(m)
    decreases |steps|
  {
    if steps != [] {
      CopiesKept(l, steps[0]);
      CopiesRun(After(l, steps[0]), steps[1..], m);
    }
  }

  // A step of the relay, not of another process of the node.
  predicate OfRelay(s: Step) {
    s.Own? ==> !s.a.Put? && !s.a.Drop?
  }

  lemma UnlinkSeen(x: Peer, y: Peer, a: Action, k: Key)
    requires Careful(x) && Truthful(x, y) && Can(x, a) && !a.Put? && !a.Drop?
    requires k in x.disk.files && k !in Do(x, a).disk.files
    ensures if k.class_ == Spool then (k, x.disk.files[k]) in y.disk.held
            else a.DoConsider? && Epochal(k) && a.age.future
  {
    assert a.DoConsider? || a.DoFinish?;
  }

  // No relay step loses the last copy: what it unlinks, the peer once held at the
  // same path, byte for byte. (Objects with an epoch far in the future are not
  // unlinked but moved to spool/dead.)
  lemma UnlinksOnlyHeld(l: Link, s: Step, k: Key)
    requires Reachable(l) && Possible(l, s) && OfRelay(s)
    requires k in At(l, s.x).disk.files && k !in At(After(l, s), s.x).disk.files
    ensures if k.class_ == Spool then (k, At(l, s.x).disk.files[k]) in At(l, Other(s.x)).disk.held
            else s.Own? && s.a.DoConsider? && Epochal(k) && s.a.age.future
  {
    CopiesReached(l);
    if s.Own? {
      UnlinkSeen(At(l, s.x), At(l, Other(s.x)), s.a, k);
    }
  }

  lemma CopiesReached(l: Link)
    requires Reachable(l)
    ensures Copies(l)
  {
    var m, steps :| Initial(m) && Leads(m, steps, l);
    CopiesRun(m, steps, l);
  }

  // What a relay has told the peer it stored or has, what the peer takes for known, and
  // what it will not offer back, it did hold at that very path, byte for byte: nothing
  // is taken for delivered that is not.
  lemma ToldIsHeld(l: Link, x: Side, id: TransferId)
    requires Reachable(l) && id.key.class_ != Presence
    requires var p, q := At(l, x), At(l, Other(x));
      || Says(p.memory.known, id) || Says(q.memory.origins, id)
      || (exists f :: (f in q.out || f in p.responses) && (f.Stored? || f.Have?) && f.id == id)
    ensures (id.key, id.digest.of) in At(l, Other(x)).disk.held
  {
    CopiesReached(l);
    assert Truthful(At(l, x), At(l, Other(x)));
  }

  // The history is one of files: a content is held when it is put there.
  lemma HeldIsThere(l: Link, s: Step, x: Side, k: Key, b: Bytes)
    requires Possible(l, s) && (k, b) in At(After(l, s), x).disk.held && (k, b) !in At(l, x).disk.held
    ensures k in At(After(l, s), x).disk.files && At(After(l, s), x).disk.files[k] == b
  {
  }

  // ------------------------------------------------------------- the installer

  // What the installer makes of the DATA of an OFFER. It answers STORED if and only if
  // the bytes are those offered, not too old and not too far ahead, and the path is
  // free, holds the same bytes, or is a presence file.
  lemma InstallDecides(p: Peer, v: Verdict)
    requires p.reader.job.Installing?
    ensures var o, data, p' := p.reader.job.o, p.reader.job.data, Install(p, v);
      var k := o.id.key;
      var whole := |data| == o.size && Sha256(data) == o.id.digest;
      p'.reader.job == Replying(
        if whole && Epochal(k) && v.expired && !v.future then Error(Expired)
        else if !whole || (Epochal(k) && v.future) || (k.class_ != Presence && k in p.disk.files && p.disk.files[k] != data)
        then Error(ImmutableConflict) else Stored(o.id))
  {
  }

  // And what it makes of the files: after STORED the bytes are at the path, unless a
  // newer presence file is; no other file changes, and after ERROR none.
  lemma InstallStores(p: Peer, v: Verdict)
    requires p.reader.job.Installing?
    ensures var o, data, p' := p.reader.job.o, p.reader.job.data, Install(p, v);
      var k := o.id.key;
      && (forall j :: j != k ==> (j in p'.disk.files <==> j in p.disk.files))
      && (forall j :: j != k && j in p.disk.files ==> p'.disk.files[j] == p.disk.files[j])
      && if p'.reader.job == Replying(Stored(o.id))
         then
           && k in p'.disk.files && p'.memory.origins == p.memory.origins[k := o.id]
           && p'.disk.files[k] == if k.class_ == Presence && k in p.disk.files && !v.wins then p.disk.files[k] else data
         else p'.disk.files == p.disk.files && p'.memory.origins == p.memory.origins
  {
  }

  // Neither side's step touches the other side's files.
  lemma OnlyOwnFiles(l: Link, s: Step)
    requires Possible(l, s)
    ensures At(After(l, s), Other(s.x)).disk == At(l, Other(s.x)).disk
  {
  }

  // What is at an immutable path stays what it is while it is there.
  lemma NeverOverwrites(l: Link, s: Step, k: Key)
    requires Possible(l, s) && OfRelay(s) && k.class_ != Presence
    requires k in At(l, s.x).disk.files && k in At(After(l, s), s.x).disk.files
    ensures At(After(l, s), s.x).disk.files[k] == At(l, s.x).disk.files[k]
  {
  }
}
