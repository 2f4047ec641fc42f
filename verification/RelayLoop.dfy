/**
  One relay loop in its own form: the fields its goroutines share and the stretches
  of code between two points where they may block. Each stretch is one step of the
  transition system of Relay, on which the theorems are proved.
*/
module RelayLoop {
  import opened Relay
  import opened RelayRuns
  import opened RelaySafety
  import opened Wrappers

  class Loop {
    const cfg: Config
    var files: map<Key, Bytes>
    var activeOut: bool
    var sender: Sender              // the locals of sendCandidate
    var responses: seq<Frame>       // the channel from the reader to the sender
    var incoming: Option<Offer>     // locals of readLoop
    var have: Option<Offer>
    var installing: bool
    var job: Installer              // the installIncoming goroutine
    var known: map<Key, TransferId>
    var rejected: map<Key, TransferId>
    var origins: map<Key, TransferId>
    var out: seq<Frame>             // the frame writer
    var fatal: Option<Fatal>
    ghost var held: set<(Key, Bytes)>

    ghost function Abs(): Peer
      reads this
    {
      Peer(cfg, Disk(files, held), sender, responses, Reader(incoming, have, job), Memory(known, rejected, origins), out, fatal)
    }

    ghost predicate Valid()
      reads this
    {
      (activeOut <==> !sender.SIdle?) && (installing <==> job.Installing?)
    }

    constructor (cfg: Config, files: map<Key, Bytes>)
      ensures Valid() && NewPeer(Abs()) && this.files == files && this.cfg == cfg
    {
      this.cfg := cfg;
      this.files := files;
      activeOut, sender, responses := false, SIdle, [];
      incoming, have, installing, job := None, None, false, Free;
      known, rejected, origins := map[], map[], map[];
      out, fatal := [], None;
      held := set k | k in files :: (k, files[k]);
    }

    method WriteFrame(f: Frame)
      modifies this`out
      ensures out == old(out) + [f]
    {
      out := out + [f];
    }

    method Fatally(why: Fatal)
      modifies this`fatal
      ensures fatal == Some(why)
    {
      fatal := Some(why);
    }

    // ------------------------------------------------------------- readLoop

    method RefuseOffer(o: Offer, expired: bool) returns (code: Option<Code>)
      ensures code == Refusal(cfg, o, expired)
    {
      var k := o.id.key;
      if k.class_ == Stream && cfg.minor < STREAM_MINOR {
        return Some(UnnegotiatedClass);
      }
      if k.class_ == Mind && cfg.minor < STATUS_MINOR {
        return Some(UnnegotiatedClass);
      }
      if o.size > cfg.maxObject {
        return Some(ObjectTooLarge);
      }
      if !HasDestination(cfg, k) {
        return Some(InvalidOffer);
      }
      if (k.class_ == Stream || k.class_ == Mind) && expired {
        return Some(Expired);
      }
      code := None;
    }

    method ReadOffer(o: Offer, expired: bool)
      requires Valid()
      modifies this`incoming, this`have, this`origins, this`out, this`fatal
      ensures Valid() && Abs() == OnOffer(old(Abs()), o, expired)
    {
      if incoming.Some? || installing {
        Fatally(InflightLimit);
        return;
      }
      var refused := RefuseOffer(o, expired);
      if refused.Some? {
        WriteFrame(Error(refused.value));
        return;
      }
      var k := o.id.key;
      if k in files && Sha256(files[k]) == o.id.digest {
        origins := origins[k := o.id];
        have := Some(o);
        WriteFrame(Have(o.id));
        return;
      }
      incoming := Some(o);
      WriteFrame(Need(o.id));
    }

    method ReadData(id: TransferId, data: Bytes)
      requires Valid()
      modifies this`incoming, this`installing, this`job, this`fatal
      ensures Valid() && Abs() == OnData(old(Abs()), id, data)
    {
      if incoming.None? {
        Fatally(UnexpectedData);
        return;
      }
      if id != incoming.value.id {
        Fatally(BadData);
        return;
      }
      var o := incoming.value;
      incoming := None;
      installing := true;
      job := Installing(o, data);
    }

    // One turn of the reader's loop, up to the STORED after a HAVE.
    method ReadLoopTurn(f: Frame, expired: bool)
      requires Valid()
      modifies this`incoming, this`have, this`installing, this`job, this`origins, this`responses, this`out, this`fatal
      ensures Valid() && Abs() == OnFrame(old(Abs()), f, expired)
    {
      match f {
        case OfferFrame(o) => ReadOffer(o, expired);
        case DataFrame(id, data) => ReadData(id, data);
        case Error(_) =>
          if activeOut {
            responses := responses + [f];
          }
        case Ping(epoch) => WriteFrame(Pong(epoch));
        case Pong(_) =>
        case _ =>
          if !activeOut {
            Fatally(UnexpectedResponse);
            return;
          }
          responses := responses + [f];
      }
    }

    method StoreHad()
      requires Valid() && have.Some?
      modifies this`have, this`out
      ensures Valid() && Abs() == FinishHave(old(Abs()))
    {
      WriteFrame(Stored(have.value.id));
      have := None;
    }

    // -------------------------------------------------------- sendCandidate

    method RemoveTransit(k: Key, offered: Digest)
      modifies this`files
      ensures files == if k in old(files) && Sha256(old(files)[k]) == offered then old(files) - {k} else old(files)
    {
      if k in files && Sha256(files[k]) == offered {
        files := files - {k};
      }
    }

    // What the logs of earlier transfers say of the candidate: none of them, or it
    // is skipped, a copy the peer is known to have STORED being removed.
    method Settled(id: TransferId, del: bool) returns (skip: bool)
      modifies this`files
      ensures skip <==> Says(origins, id) || Says(rejected, id) || Says(known, id)
      ensures files == if !Says(origins, id) && !Says(rejected, id) && Says(known, id) && del &&
                          id.key in old(files) && Sha256(old(files)[id.key]) == id.digest
                       then old(files) - {id.key} else old(files)
    {
      if id.key in origins && origins[id.key] == id {
        return true;
      }
      if id.key in rejected && rejected[id.key] == id {
        return true;
      }
      if id.key in known && known[id.key] == id {
        if del {
          RemoveTransit(id.key, id.digest);
        }
        return true;
      }
      skip := false;
    }

    method OfferCandidate(k: Key, fire: bool, age: Age)
      requires Valid() && sender.SIdle? && k in files
      modifies this`files, this`activeOut, this`sender, this`out
      ensures Valid() && Abs() == Consider(old(Abs()), k, fire, age)
    {
      if k.class_ == Stream && cfg.minor < STREAM_MINOR {
        return;
      }
      if k.class_ == Mind && cfg.minor < STATUS_MINOR {
        return;
      }
      if (k.class_ == Stream || k.class_ == Mind) && age.expired {
        return;
      }
      var data := files[k];
      if |data| > cfg.maxObject {
        WriteFrame(Error(ObjectTooLarge));
        return;
      }
      var id := TransferId(k, Sha256(data));
      var del := k.class_ == Spool && (cfg.role == Serve || fire);
      var skip := Settled(id, del);
      if skip {
        return;
      }
      if (k.class_ == Stream || k.class_ == Mind) && age.future {
        files := files - {k};
        return;
      }
      activeOut := true;
      sender := SFirst(Offer(id, |data|), data, del);
      WriteFrame(OfferFrame(Offer(id, |data|)));
    }

    // waitResponse, once a frame is there: its id is checked unless it is an ERROR.
    method WaitResponse(id: TransferId) returns (f: Frame, ok: bool)
      requires responses != []
      modifies this`responses, this`fatal
      ensures f == old(responses)[0] && responses == old(responses)[1..]
      ensures ok <==> f.Error? || ((f.Have? || f.Need? || f.Stored?) && f.id == id)
      ensures fatal == if ok then old(fatal) else Some(IdMismatch)
    {
      f := responses[0];
      responses := responses[1..];
      ok := f.Error? || ((f.Have? || f.Need? || f.Stored?) && f.id == id);
      if !ok {
        Fatally(IdMismatch);
      }
    }

    method MarkRejected(id: TransferId)
      requires Valid()
      modifies this`rejected, this`activeOut, this`sender
      ensures Valid() && sender == SIdle && rejected == old(rejected)[id.key := id]
    {
      rejected := rejected[id.key := id];
      sender := SIdle;
      activeOut := false;
    }

    method FirstResponse()
      requires Valid() && sender.SFirst? && responses != []
      modifies this`responses, this`rejected, this`activeOut, this`sender, this`fatal
      ensures Valid() && Abs() == TakeFirst(old(Abs()))
    {
      var f, ok := WaitResponse(sender.o.id);
      if !ok {
        return;
      }
      if f.Error? {
        MarkRejected(sender.o.id);
      } else if f.Have? {
        sender := SSecond(sender.o, false, sender.del);
      } else if f.Need? {
        sender := SSend(sender.o, sender.data, sender.del);
      } else {
        Fatally(BadFirst);
      }
    }

    method SendData()
      requires Valid() && sender.SSend?
      modifies this`sender, this`out
      ensures Valid() && Abs() == WriteData(old(Abs()))
    {
      WriteFrame(DataFrame(sender.o.id, sender.data));
      sender := SSecond(sender.o, true, sender.del);
    }

    method SecondResponse()
      requires Valid() && sender.SSecond? && responses != []
      modifies this`responses, this`rejected, this`activeOut, this`sender, this`fatal
      ensures Valid() && Abs() == TakeSecond(old(Abs()))
    {
      var f, ok := WaitResponse(sender.o.id);
      if !ok {
        return;
      }
      if f.Error? {
        MarkRejected(sender.o.id);
      } else if f.Stored? {
        sender := SDone(sender.o, sender.del);
      } else {
        Fatally(BadSecond);
      }
    }

    method FinishCandidate()
      requires Valid() && sender.SDone?
      modifies this`known, this`rejected, this`files, this`activeOut, this`sender
      ensures Valid() && Abs() == Finish(old(Abs()))
    {
      var o, del := sender.o, sender.del;
      known := known[o.id.key := o.id];
      rejected := rejected - {o.id.key};
      if del {
        RemoveTransit(o.id.key, o.id.digest);
      }
      sender := SIdle;
      activeOut := false;
    }

    // ------------------------------------------------------ installIncoming

    method PlaceFile(k: Key, data: Bytes)
      modifies this`files, this`held
      ensures Disk(files, held) == Place(Disk(old(files), old(held)), k, data)
    {
      files := files[k := data];
      held := held + {(k, data)};
    }

    method ReceiveObject(o: Offer, data: Bytes, v: Verdict) returns (result: InstallResult)
      modifies this`files, this`held
      ensures (result, Disk(files, held)) == Receive(Disk(old(files), old(held)), o, data, v)
    {
      var k := o.id.key;
      if |data| != o.size {
        return Quarantined;
      }
      if Sha256(data) != o.id.digest {
        return Quarantined;
      }
      if k.class_ == Stream || k.class_ == Mind {
        if v.future {
          return Quarantined;
        }
        if v.expired {
          return ExpiredSkipped;
        }
      }
      if k.class_ == Presence {
        if v.wins || k !in files {
          PlaceFile(k, data);
        }
        return Installed;
      }
      if k !in files {
        PlaceFile(k, data);
        return Installed;
      }
      result := if Sha256(files[k]) == o.id.digest then AlreadyStored else Quarantined;
    }

    method InstallIncoming(v: Verdict)
      requires Valid() && job.Installing?
      modifies this`files, this`held, this`origins, this`installing, this`job
      ensures Valid() && Abs() == Install(old(Abs()), v)
    {
      var o := job.o;
      var result := ReceiveObject(o, job.data, v);
      installing := false;
      if result == ExpiredSkipped {
        job := Replying(Error(Expired));
        return;
      }
      if result == Quarantined {
        job := Replying(Error(ImmutableConflict));
        return;
      }
      origins := origins[o.id.key := o.id];
      job := Replying(Stored(o.id));
    }

    method ReplyInstalled()
      requires Valid() && job.Replying?
      modifies this`job, this`out
      ensures Valid() && Abs() == Reply(old(Abs()))
    {
      WriteFrame(job.reply);
      job := Free;
    }
  }
  // What the methods of a loop ensure, seen from the link it is part of: its state
  // after one of its own stretches of code is again that of a loop on a reachable
  // link, so the theorems hold of it.
  lemma OwnStretchInLink(l: Link, x: Side, a: Action, p: Peer)
    requires Reachable(l) && Can(At(l, x), a) && Fits(l, Own(x, a)) && p == Do(At(l, x), a)
    ensures Reachable(With(l, x, p)) && p.fatal.None? && |p.responses| <= 2
  {
    var l0, steps :| Initial(l0) && Leads(l0, steps, l);
    LeadsExtends(l0, steps, l, Own(x, a));
    assert After(l, Own(x, a)) == With(l, x, p);
    NeverFatal(With(l, x, p));
  }

  // The same for a turn of its reader, which takes the peer's oldest frame.
  lemma ReaderTurnInLink(l: Link, x: Side, expired: bool, p: Peer)
    requires Reachable(l) && At(l, x).reader.have.None? && At(l, Other(x)).out != []
    requires p == OnFrame(At(l, x), At(l, Other(x)).out[0], expired)
    ensures var q := At(l, Other(x)); Reachable(With(With(l, x, p), Other(x), q.(out := q.out[1..])))
    ensures p.fatal.None? && |p.responses| <= 2
  {
    NeverFatal(l);
    var l0, steps :| Initial(l0) && Leads(l0, steps, l);
    LeadsExtends(l0, steps, l, Read(x, expired));
    NeverFatal(After(l, Read(x, expired)));
  }
}
