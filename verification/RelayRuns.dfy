/**
  Whole runs of two relay loops: what the two sides say to each other, and that a
  transfer once offered always comes to its end.
*/
module RelayRuns {
  import opened Relay
  import opened RelaySafety
  import opened Wrappers

  // ------------------------------------------------------------ the dialogue

  // How far the object of one direction is, by the frames written about it.
  datatype Turn = Ready | Offered(id: TransferId) | Promised(id: TransferId) | Asked(id: TransferId) | Sending(id: TransferId) | Broken

  // OFFER (ERROR | HAVE STORED | NEED DATA (STORED | ERROR)), over and over.
  function Next(t: Turn, f: Frame): Turn {
    match t
    case Ready => if f.OfferFrame? then Offered(f.o.id) else Broken
    case Offered(id) => if f == Have(id) then Promised(id) else if f == Need(id) then Asked(id) else if f.Error? then Ready else Broken
    case Promised(id) => if f == Stored(id) then Ready else Broken
    case Asked(id) => if f.DataFrame? && f.id == id then Sending(id) else Broken
    case Sending(id) => if f == Stored(id) || f.Error? then Ready else Broken
    case Broken => Broken
  }

  function Talked(t: Turn, fs: seq<Frame>): Turn
    decreases |fs|
  {
    if fs == [] then t else Talked(Next(t, fs[0]), fs[1..])
  }

  // Where the direction from x to y is.
  function TurnOf(x: Peer, y: Peer): Turn {
    if x.sender.SIdle? || x.sender.SDone? then Ready
    else
      var id := x.sender.o.id;
      if y.reader.have.Some? then Promised(id)
      else if y.reader.incoming.Some? then (if x.sender.SSecond? then Sending(id) else Asked(id))
      else if !y.reader.job.Free? then Sending(id)
      else if Forwards(x.out) != [] then Offered(id)
      else Ready
  }

  // The frames a step of side s.x writes.
  function News(l: Link, s: Step): seq<Frame>
    requires Possible(l, s)
    ensures At(After(l, s), s.x).out == At(l, s.x).out + News(l, s)
  {
    At(After(l, s), s.x).out[|At(l, s.x).out|..]
  }

  // What a step says about the object of direction x.
  function Said(l: Link, s: Step, x: Side): seq<Frame>
    requires Possible(l, s)
  {
    if s.x == x then Forwards(News(l, s)) else Answers(News(l, s))
  }

  lemma Single(t: Turn, f: Frame)
    ensures Talked(t, Forwards([f])) == if Forward(f) then Next(t, f) else t
    ensures Talked(t, Answers([f])) == if Response(f) then Next(t, f) else t
  {
    var none: seq<Frame> := [];
    assert [f][1..] == none && Forwards(none) == [] && Answers(none) == [];
    assert Forwards([f]) == (if Forward(f) then [f] else []) && Answers([f]) == if Response(f) then [f] else [];
    assert Talked(Next(t, f), none) == Next(t, f);
  }

  // x and y have become x' and y', x having written fs.
  predicate Advances(x: Peer, y: Peer, x': Peer, y': Peer, fs: seq<Frame>) {
    && TurnOf(x', y') == Talked(TurnOf(x, y), Forwards(fs))
    && TurnOf(y', x') == Talked(TurnOf(y, x), Answers(fs))
  }

  lemma Cancels(out: seq<Frame>, fs: seq<Frame>, gs: seq<Frame>)
    requires out + fs == out + gs
    ensures fs == gs
  {
    assert (out + fs)[|out|..] == fs && (out + gs)[|out|..] == gs;
  }

  lemma OneFrame(x: Peer, y: Peer, x': Peer, y': Peer, f: Frame)
    requires TurnOf(x', y') == (if Forward(f) then Next(TurnOf(x, y), f) else TurnOf(x, y))
    requires TurnOf(y', x') == (if Response(f) then Next(TurnOf(y, x), f) else TurnOf(y, x))
    ensures Advances(x, y, x', y', [f])
  {
    Single(TurnOf(x, y), f);
    Single(TurnOf(y, x), f);
  }

  lemma ConsiderAdvances(x: Peer, y: Peer, k: Key, fire: bool, age: Age, fs: seq<Frame>)
    requires Both(x, y) && Can(x, DoConsider(k, fire, age)) && |x.disk.files[k]| <= x.cfg.maxObject
    requires Consider(x, k, fire, age).out == x.out + fs
    ensures Advances(x, y, Consider(x, k, fire, age), y, fs)
  {
    var x' := Consider(x, k, fire, age);
    if x'.sender.SFirst? {
      var f := OfferFrame(x'.sender.o);
      Cancels(x.out, fs, [f]);
      Appends(x.out, f);
      OneFrame(x, y, x', y, f);
    } else if |x.disk.files[k]| <= x.cfg.maxObject {
      Cancels(x.out, fs, []);
    }
  }

  // The frame an own action other than sending an OFFER writes.
  function Written(x: Peer, a: Action): seq<Frame>
    requires Can(x, a) && !a.DoConsider?
    ensures Do(x, a).out == x.out + Written(x, a)
  {
    match a
    case DoData => [DataFrame(x.sender.o.id, x.sender.data)]
    case DoReply => [x.reader.job.reply]
    case DoFinishHave => [Stored(x.reader.have.value.id)]
    case DoPing(e) => [Ping(e)]
    case _ => []
  }

  lemma DataAdvances(x: Peer, y: Peer)
    requires Both(x, y) && Can(x, DoData)
    ensures Advances(x, y, WriteData(x), y, Written(x, DoData))
  {
    var f := Written(x, DoData)[0];
    Appends(x.out, f);
    OneFrame(x, y, WriteData(x), y, f);
  }

  // x answers y's object with STORED or ERROR.
  lemma ReplyAdvances(x: Peer, y: Peer)
    requires Both(x, y) && Can(x, DoReply)
    ensures Advances(x, y, Reply(x), y, [x.reader.job.reply])
  {
    Appends(x.out, x.reader.job.reply);
    ReplyTerminal(y, x);
    OneFrame(x, y, Reply(x), y, x.reader.job.reply);
  }

  lemma HaveAdvances(x: Peer, y: Peer)
    requires Both(x, y) && Can(x, DoFinishHave)
    ensures Advances(x, y, FinishHave(x), y, [Stored(x.reader.have.value.id)])
  {
    Appends(x.out, Stored(x.reader.have.value.id));
    OneFrame(x, y, FinishHave(x), y, Stored(x.reader.have.value.id));
  }

  lemma PingAdvances(x: Peer, y: Peer, epoch: nat)
    requires Both(x, y)
    ensures Advances(x, y, Write(x, Ping(epoch)), y, [Ping(epoch)])
  {
    Appends(x.out, Ping(epoch));
    OneFrame(x, y, Write(x, Ping(epoch)), y, Ping(epoch));
  }

  // Nothing is said, and neither turn changes.
  lemma NothingSaid(x: Peer, y: Peer, x': Peer, y': Peer)
    requires TurnOf(x', y') == TurnOf(x, y) && TurnOf(y', x') == TurnOf(y, x)
    ensures Advances(x, y, x', y', [])
  {
  }

  lemma FirstAdvances(x: Peer, y: Peer)
    requires Both(x, y) && Can(x, DoFirst)
    ensures Advances(x, y, TakeFirst(x), y, [])
  {
    NextResponse(x, y);
    NothingSaid(x, y, TakeFirst(x), y);
  }

  lemma SecondAdvances(x: Peer, y: Peer)
    requires Both(x, y) && Can(x, DoSecond)
    ensures Advances(x, y, TakeSecond(x), y, [])
  {
    NextResponse(x, y);
    NothingSaid(x, y, TakeSecond(x), y);
  }

  lemma SilentAdvances(x: Peer, y: Peer, a: Action)
    requires Both(x, y) && Can(x, a) && (a.DoFinish? || a.Put? || a.Drop?)
    ensures Advances(x, y, Do(x, a), y, [])
  {
    var x' := Do(x, a);
    assert x'.reader == x.reader && x'.out == x.out;
    assert x'.sender == x.sender || (x.sender.SDone? && x'.sender.SIdle?);
    NothingSaid(x, y, x', y);
  }

  lemma InstallAdvances(x: Peer, y: Peer, v: Verdict)
    requires Both(x, y) && Can(x, DoInstall(v))
    ensures Advances(x, y, Install(x, v), y, [])
  {
  }

  lemma OtherAdvances(x: Peer, y: Peer, a: Action)
    requires Both(x, y) && Can(x, a) && !a.DoConsider?
    ensures Advances(x, y, Do(x, a), y, Written(x, a))
  {
    match a
    case DoData => DataAdvances(x, y);
    case DoReply => ReplyAdvances(x, y);
    case DoFinishHave => HaveAdvances(x, y);
    case DoPing(e) => PingAdvances(x, y, e);
    case DoFirst => FirstAdvances(x, y);
    case DoSecond => SecondAdvances(x, y);
    case DoInstall(v) => InstallAdvances(x, y, v);
    case _ => SilentAdvances(x, y, a);
  }

  lemma OwnAdvances(x: Peer, y: Peer, a: Action, fs: seq<Frame>)
    requires Both(x, y) && Can(x, a) && Do(x, a).out == x.out + fs
    requires a.DoConsider? ==> |x.disk.files[a.k]| <= x.cfg.maxObject
    ensures Advances(x, y, Do(x, a), y, fs)
  {
    if a.DoConsider? {
      ConsiderAdvances(x, y, a.k, a.fire, a.age, fs);
    } else {
      Cancels(x.out, fs, Written(x, a));
      OtherAdvances(x, y, a);
    }
  }

  lemma OfferAdvances(x: Peer, y: Peer, expired: bool, f: Frame)
    requires Both(x, y) && x.reader.have.None? && y.out != [] && y.out[0].OfferFrame?
    requires OnFrame(x, y.out[0], expired).out == x.out + [f]
    ensures Advances(x, y, OnFrame(x, y.out[0], expired), y.(out := y.out[1..]), [f])
  {
    HeadObject(y, x);
    assert f == OnFrame(x, y.out[0], expired).out[|x.out|];
    Appends(x.out, f);
    OneFrame(x, y, OnFrame(x, y.out[0], expired), y.(out := y.out[1..]), f);
  }

  lemma ReadAdvances(x: Peer, y: Peer, expired: bool, fs: seq<Frame>)
    requires Both(x, y) && x.reader.have.None? && y.out != [] && OnFrame(x, y.out[0], expired).out == x.out + fs
    ensures Advances(x, y, OnFrame(x, y.out[0], expired), y.(out := y.out[1..]), fs)
  {
    var f, y', x' := y.out[0], y.(out := y.out[1..]), OnFrame(x, y.out[0], expired);
    if f.OfferFrame? {
      HeadObject(y, x);
      Cancels(x.out, fs, [x'.out[|x.out|]]);
      OfferAdvances(x, y, expired, fs[0]);
    } else if f.Ping? {
      Cancels(x.out, fs, [Pong(f.epoch)]);
      Appends(x.out, Pong(f.epoch));
      OneFrame(x, y, x', y', Pong(f.epoch));
    } else {
      Cancels(x.out, fs, []);
      if f.DataFrame? {
        DataReadAdvances(x, y, expired);
      } else {
        AnswerReadAdvances(x, y, expired);
      }
    }
  }

  lemma DataReadAdvances(x: Peer, y: Peer, expired: bool)
    requires Both(x, y) && x.reader.have.None? && y.out != [] && y.out[0].DataFrame?
    ensures Advances(x, y, OnFrame(x, y.out[0], expired), y.(out := y.out[1..]), [])
  {
    HeadObject(y, x);
    NothingSaid(x, y, OnFrame(x, y.out[0], expired), y.(out := y.out[1..]));
  }

  lemma AnswerReadAdvances(x: Peer, y: Peer, expired: bool)
    requires Both(x, y) && x.reader.have.None? && y.out != [] && !Forward(y.out[0]) && !y.out[0].Ping?
    ensures Advances(x, y, OnFrame(x, y.out[0], expired), y.(out := y.out[1..]), [])
  {
    assert OnFrame(x, y.out[0], expired).out == x.out;
    NothingSaid(x, y, OnFrame(x, y.out[0], expired), y.(out := y.out[1..]));
  }

  lemma StepSaid(l: Link, s: Step, x: Side)
    requires InStep(l) && Possible(l, s) && Fits(l, s)
    ensures var l' := After(l, s);
      TurnOf(At(l', x), At(l', Other(x))) == Talked(TurnOf(At(l, x), At(l, Other(x))), Said(l, s, x))
  {
    var p, q := At(l, s.x), At(l, Other(s.x));
    match s
    case Own(_, a) => OwnAdvances(p, q, a, News(l, s));
    case Read(_, expired) => ReadAdvances(p, q, expired, News(l, s));
  }

  // -------------------------------------------------------------- whole runs

  ghost predicate Leads(l: Link, steps: seq<Step>, m: Link)
    decreases |steps|
  {
    if steps == [] then l == m
    else Possible(l, steps[0]) && Fits(l, steps[0]) && Leads(After(l, steps[0]), steps[1..], m)
  }

  ghost predicate Reachable(m: Link) {
    exists l, steps :: Initial(l) && Leads(l, steps, m)
  }

  lemma {:induction false} RunInStep(l: Link, steps: seq<Step>, m: Link)
    requires InStep(l) && Leads(l, steps, m)
    ensures InStep(m)
    decreases |steps|
  {
    if steps != [] {
      InStepKept(l, steps[0]);
      RunInStep(After(l, steps[0]), steps[1..], m);
    }
  }

  lemma {:induction false} LeadsExtends(l: Link, steps: seq<Step>, m: Link, s: Step)
    requires Leads(l, steps, m) && Possible(m, s) && Fits(m, s)
    ensures Leads(l, steps + [s], After(m, s))
    decreases |steps|
  {
    if steps == [] {
      var none: seq<Step> := [];
      assert [s][1..] == none && steps + [s] == [s] && Leads(After(m, s), none, After(m, s));
    } else {
      LeadsExtends(After(l, steps[0]), steps[1..], m, s);
      assert (steps + [s])[1..] == steps[1..] + [s];
    }
  }

  // No run of two relay loops ends in a fatal protocol error, and the response
  // queue of eight never fills.
  lemma NeverFatal(m: Link)
    requires Reachable(m)
    ensures InStep(m) && m.a.fatal.None? && m.b.fatal.None?
    ensures |m.a.responses| <= 2 && |m.b.responses| <= 2
  {
    var l, steps :| Initial(l) && Leads(l, steps, m);
    RunInStep(l, steps, m);
  }

  // Everything said about the objects of direction x, in order.
  ghost function Transcript(l: Link, steps: seq<Step>, m: Link, x: Side): seq<Frame>
    requires Leads(l, steps, m)
    decreases |steps|
  {
    if steps == [] then []
    else Said(l, steps[0], x) + Transcript(After(l, steps[0]), steps[1..], m, x)
  }

  lemma {:induction false} TalkedOn(t: Turn, fs: seq<Frame>, gs: seq<Frame>)
    ensures Talked(t, fs + gs) == Talked(Talked(t, fs), gs)
    decreases |fs|
  {
    if fs == [] {
      assert fs + gs == gs;
    } else {
      TalkedOn(Next(t, fs[0]), fs[1..], gs);
      assert (fs + gs)[1..] == fs[1..] + gs;
    }
  }

  lemma {:induction false} RunTalked(l: Link, steps: seq<Step>, m: Link, x: Side)
    requires InStep(l) && Leads(l, steps, m)
    ensures TurnOf(At(m, x), At(m, Other(x))) == Talked(TurnOf(At(l, x), At(l, Other(x))), Transcript(l, steps, m, x))
    decreases |steps|
  {
    if steps != [] {
      StepSaid(l, steps[0], x);
      InStepKept(l, steps[0]);
      RunTalked(After(l, steps[0]), steps[1..], m, x);
      TalkedOn(TurnOf(At(l, x), At(l, Other(x))), Said(l, steps[0], x), Transcript(After(l, steps[0]), steps[1..], m, x));
    }
  }

  function Count(fs: seq<Frame>, offers: bool): nat {
    if fs == [] then 0
    else
      var f := fs[|fs| - 1];
      Count(fs[..|fs| - 1], offers) + if (if offers then f.OfferFrame? else f.Stored? || f.Error?) then 1 else 0
  }

  // In an unbroken dialogue, every OFFER but the one under way has one terminal
  // STORED or ERROR.
  lemma {:induction false} Balanced(fs: seq<Frame>)
    requires Talked(Ready, fs) != Broken
    ensures Count(fs, true) == Count(fs, false) + if Talked(Ready, fs) == Ready then 0 else 1
    decreases |fs|
  {
    if fs != [] {
      var n := |fs| - 1;
      assert fs == fs[..n] + [fs[n]];
      TalkedOn(Ready, fs[..n], [fs[n]]);
      assert Talked(Talked(Ready, fs[..n]), [fs[n]]) == Next(Talked(Ready, fs[..n]), fs[n]) by {
        assert [fs[n]][1..] == [];
      }
      Balanced(fs[..n]);
    }
  }

  // In every run each direction keeps to the dialogue, so each OFFER written gets
  // exactly one terminal frame, before the next OFFER.
  lemma DialogueKept(l: Link, steps: seq<Step>, m: Link, x: Side)
    requires Initial(l) && Leads(l, steps, m)
    ensures var said := Transcript(l, steps, m, x);
      && Talked(Ready, said) == TurnOf(At(m, x), At(m, Other(x))) && Talked(Ready, said) != Broken
      && Count(said, true) == Count(said, false) + if Talked(Ready, said) == Ready then 0 else 1
  {
    RunTalked(l, steps, m, x);
    Balanced(Transcript(l, steps, m, x));
  }

  // ------------------------------------------------------------ it always ends

  function Weight(f: Frame): nat {
    match f
    case OfferFrame(_) => 6
    case DataFrame(_, _) => 5
    case Ping(_) => 2
    case Pong(_) => 1
    case _ => 2
  }

  function Load(s: seq<Frame>): nat {
    if s == [] then 0 else Load(s[..|s| - 1]) + Weight(s[|s| - 1])
  }

  lemma {:induction false} Unloads(s: seq<Frame>)
    requires s != []
    ensures Load(s) == Load(s[1..]) + Weight(s[0])
  {
    if |s| == 1 {
      assert s[..|s| - 1] == [] && s[1..] == [];
    } else {
      Unloads(s[..|s| - 1]);
      assert s[..|s| - 1][1..] == s[1..][..|s[1..]| - 1];
    }
  }

  lemma Loads(s: seq<Frame>, f: Frame)
    ensures Load(s + [f]) == Load(s) + Weight(f)
  {
    assert (s + [f])[..|s|] == s;
  }

  function SendingWork(s: Sender): nat {
    match s
    case SIdle => 0
    case SFirst(_, _, _) => 8
    case SSend(_, _, _) => 8
    case SSecond(_, _, _) => 2
    case SDone(_, _) => 1
  }

  function AnsweringWork(r: Reader): nat {
    (if r.have.Some? then 3 else 0) + match r.job case Free => 0 case Installing(_, _) => 4 case Replying(_) => 3
  }

  // How much a peer has left to do.
  function Work(p: Peer): nat {
    SendingWork(p.sender) + AnsweringWork(p.reader) + |p.responses| + Load(p.out)
  }

  // A step of the protocol itself, as opposed to a new candidate, a ping or
  // another process.
  predicate Protocol(s: Step) {
    s.Read? || s.a.DoFirst? || s.a.DoData? || s.a.DoSecond? || s.a.DoFinish? || s.a.DoInstall? || s.a.DoReply? || s.a.DoFinishHave?
  }

  lemma ResponseWorks(x: Peer, y: Peer, a: Action)
    requires Both(x, y) && Can(x, a) && (a.DoFirst? || a.DoSecond?)
    ensures Work(Do(x, a)) < Work(x)
  {
    assert (x.responses + Answers(y.out))[0] == x.responses[0];
    var x' := Do(x, a);
    assert x'.responses == x.responses[1..] && x'.reader == x.reader && x'.out == x.out;
    assert SendingWork(x'.sender) <= SendingWork(x.sender);
  }

  lemma ReplyTerminal(y: Peer, x: Peer)
    requires Direction(y, x) && x.reader.job.Replying?
    ensures x.reader.job.reply.Stored? || x.reader.job.reply.Error?
  {
  }

  lemma ReplyWorks(x: Peer)
    requires x.reader.job.Replying? && (x.reader.job.reply.Stored? || x.reader.job.reply.Error?)
    ensures Work(Reply(x)) < Work(x)
  {
    Loads(x.out, x.reader.job.reply);
  }

  lemma InstallWorks(x: Peer, v: Verdict)
    requires Can(x, DoInstall(v))
    ensures Work(Install(x, v)) < Work(x)
  {
    var x' := Install(x, v);
    assert x'.reader.job.Replying? && x'.reader.have == x.reader.have;
  }

  lemma OwnWorks(x: Peer, y: Peer, a: Action)
    requires Both(x, y) && Can(x, a) && Protocol(Own(A, a))
    ensures Work(Do(x, a)) < Work(x)
  {
    match a
    case DoInstall(v) => InstallWorks(x, v);
    case DoFirst => ResponseWorks(x, y, a);
    case DoSecond => ResponseWorks(x, y, a);
    case DoFinish =>
    case DoData => Loads(x.out, DataFrame(x.sender.o.id, x.sender.data));
    case DoReply =>
      ReplyTerminal(y, x);
      ReplyWorks(x);
    case DoFinishHave => Loads(x.out, Stored(x.reader.have.value.id));
  }

  // A free reader answers an OFFER with one frame.
  lemma OfferShape(x: Peer, o: Offer, expired: bool) returns (f: Frame)
    requires x.reader == Reader(None, None, Free)
    ensures var x' := OnOffer(x, o, expired);
      && x'.out == x.out + [f] && x'.sender == x.sender && x'.responses == x.responses && x'.reader.job.Free?
      && (f.Have? || f.Need? || f.Error?)
  {
    var x' := OnOffer(x, o, expired);
    match Refusal(x.cfg, o, expired)
    case Some(code) => f := Error(code);
    case None => f := if x'.reader.have.Some? then Have(o.id) else Need(o.id);
  }

  lemma OfferWorks(x: Peer, o: Offer, expired: bool)
    requires x.reader == Reader(None, None, Free)
    ensures Work(OnOffer(x, o, expired)) < Work(x) + 6
  {
    var f := OfferShape(x, o, expired);
    Loads(x.out, f);
    assert AnsweringWork(OnOffer(x, o, expired).reader) <= 3;
  }

  // What reading f adds to do is less than f itself.
  lemma FrameWorks(x: Peer, y: Peer, f: Frame, expired: bool)
    requires Both(x, y) && y.out != [] && f == y.out[0]
    ensures Work(OnFrame(x, f, expired)) < Work(x) + Weight(f)
  {
    match f
    case OfferFrame(o) =>
      HeadObject(y, x);
      OfferWorks(x, o, expired);
    case DataFrame(id, data) =>
      HeadObject(y, x);
      DataWorks(x, id, data);
    case Ping(e) => Loads(x.out, Pong(e));
    case _ => AnswerReadWorks(x, f, expired);
  }

  lemma DataWorks(x: Peer, id: TransferId, data: Bytes)
    requires x.reader.incoming.Some? && x.reader.incoming.value.id == id && x.reader.job.Free?
    ensures Work(OnData(x, id, data)) < Work(x) + 5
  {
    var x' := OnData(x, id, data);
    assert x'.reader.have == x.reader.have && x'.out == x.out && x'.sender == x.sender && x'.responses == x.responses;
  }

  lemma ReadWorks(x: Peer, y: Peer, expired: bool)
    requires Both(x, y) && x.reader.have.None? && y.out != []
    ensures Work(OnFrame(x, y.out[0], expired)) + Load(y.out[1..]) < Work(x) + Load(y.out)
  {
    Unloads(y.out);
    FrameWorks(x, y, y.out[0], expired);
  }

  lemma AnswerReadWorks(x: Peer, f: Frame, expired: bool)
    requires !Forward(f) && !f.Ping?
    ensures Work(OnFrame(x, f, expired)) < Work(x) + Weight(f)
  {
    var x' := OnFrame(x, f, expired);
    assert x'.out == x.out && x'.sender == x.sender && x'.reader == x.reader;
    assert |x'.responses| <= |x.responses| + 1;
  }

  // Every protocol step leaves less to do, and while anything is left to do some
  // protocol step is possible: a transfer once offered is always answered.
  lemma AlwaysFinishes(l: Link)
    requires InStep(l)
    ensures forall s :: Possible(l, s) && Protocol(s) ==> Work(After(l, s).a) + Work(After(l, s).b) < Work(l.a) + Work(l.b)
    ensures Work(l.a) + Work(l.b) > 0 ==> exists s :: Possible(l, s) && Protocol(s)
    ensures Work(l.a) + Work(l.b) == 0 <==> l.a.sender.SIdle? && l.b.sender.SIdle? && l.a.out == [] && l.b.out == []
  {
    forall s | Possible(l, s) && Protocol(s)
      ensures Work(After(l, s).a) + Work(After(l, s).b) < Work(l.a) + Work(l.b)
    {
      match s
      case Own(x, a) => OwnWorks(At(l, x), At(l, Other(x)), a);
      case Read(x, expired) => ReadWorks(At(l, x), At(l, Other(x)), expired);
    }
    Unfinished(l, A);
    Unfinished(l, B);
    Done(l.a, l.b);
    Done(l.b, l.a);
  }

  lemma Done(x: Peer, y: Peer)
    requires Both(x, y)
    ensures x.sender.SIdle? && x.out == [] && y.sender.SIdle? && y.out == [] ==> Work(x) == 0
    ensures Work(x) == 0 ==> x.sender.SIdle? && x.out == []
  {
    if x.out != [] {
      Unloads(x.out);
    }
  }

  lemma Unfinished(l: Link, x: Side)
    requires InStep(l)
    ensures Work(At(l, x)) > 0 ==> exists s :: Possible(l, s) && Protocol(s)
  {
    var p := At(l, x);
    if Work(p) == 0 {
    } else if p.sender.SSend? {
      assert Possible(l, Own(x, DoData));
    } else if p.sender.SDone? {
      assert Possible(l, Own(x, DoFinish));
    } else if p.responses != [] {
      assert Possible(l, Own(x, if p.sender.SFirst? then DoFirst else DoSecond));
    } else if p.reader.have.Some? {
      assert Possible(l, Own(x, DoFinishHave));
    } else if p.reader.job.Replying? {
      assert Possible(l, Own(x, DoReply));
    } else if p.reader.job.Installing? {
      assert Possible(l, Own(x, DoInstall(Verdict(false, false, false))));
    } else {
      UnfinishedElsewhere(l, x);
    }
  }

  lemma UnfinishedElsewhere(l: Link, x: Side)
    requires InStep(l) && Work(At(l, x)) > 0 && At(l, x).responses == [] && At(l, x).reader.have.None? && At(l, x).reader.job.Free?
    requires !At(l, x).sender.SSend? && !At(l, x).sender.SDone?
    ensures exists s :: Possible(l, s) && Protocol(s)
  {
    var p, q, y := At(l, x), At(l, Other(x)), Other(x);
    if q.reader.have.Some? {
      assert Possible(l, Own(y, DoFinishHave));
    } else if p.out != [] {
      assert Possible(l, Read(y, false));
    } else if q.out != [] {
      assert Possible(l, Read(x, false));
    } else if q.reader.job.Installing? {
      assert Possible(l, Own(y, DoInstall(Verdict(false, false, false))));
    } else {
      assert q.reader.job.Replying?;
      assert Possible(l, Own(y, DoReply));
    }
  }
}
