/**
  Two relay loops never get out of step: one object in flight per direction, every
  accepted OFFER answered once, and no fatal protocol error.
*/
module RelaySafety {
  import opened Relay
  import opened Wrappers

  predicate Forward(f: Frame) { f.OfferFrame? || f.DataFrame? }

  predicate Response(f: Frame) { f.Have? || f.Need? || f.Stored? || f.Error? }

  // The frames of a stream that carry objects, and those that answer.
  function Forwards(s: seq<Frame>): seq<Frame> {
    if s == [] then [] else if Forward(s[0]) then [s[0]] + Forwards(s[1..]) else Forwards(s[1..])
  }

  function Answers(s: seq<Frame>): seq<Frame> {
    if s == [] then [] else if Response(s[0]) then [s[0]] + Answers(s[1..]) else Answers(s[1..])
  }

  lemma Alone(f: Frame)
    ensures Forwards([f]) == if Forward(f) then [f] else []
    ensures Answers([f]) == if Response(f) then [f] else []
  {
    var none: seq<Frame> := [];
    assert [f][1..] == none && Forwards(none) == [] && Answers(none) == [];
  }

  lemma {:induction false} Appends(s: seq<Frame>, f: Frame)
    ensures Forwards(s + [f]) == Forwards(s) + if Forward(f) then [f] else []
    ensures Answers(s + [f]) == Answers(s) + if Response(f) then [f] else []
  {
    if s == [] {
      Alone(f);
      assert s + [f] == [f];
    } else {
      Appends(s[1..], f);
      FirstStays(s, f);
    }
  }

  lemma FirstStays(s: seq<Frame>, f: Frame)
    requires s != []
    ensures (s + [f])[1..] == s[1..] + [f] && (s + [f])[0] == s[0]
  {
  }

  predicate Sound(o: Offer, data: Bytes) {
    Sha256(data) == o.id.digest && |data| == o.size
  }

  predicate Quiet(fwd: seq<Frame>, r: Reader) {
    fwd == [] && r == Reader(None, None, Free)
  }

  // Where one direction stands: its sender, the object frames under way, the
  // receiving reader, and the answers under way.
  predicate Phase(s: Sender, fwd: seq<Frame>, r: Reader, rsp: seq<Frame>) {
    match s
    case SIdle => Quiet(fwd, r) && rsp == []
    case SFirst(o, data, _) => Sound(o, data) && FirstPhase(o, fwd, r, rsp)
    case SSend(o, data, _) => Sound(o, data) && fwd == [] && r == Reader(Some(o), None, Free) && rsp == []
    case SSecond(o, needed, _) => if needed then NeedPhase(o, fwd, r, rsp) else HavePhase(o, fwd, r, rsp)
    case SDone(_, _) => Quiet(fwd, r) && rsp == []
  }

  predicate FirstPhase(o: Offer, fwd: seq<Frame>, r: Reader, rsp: seq<Frame>) {
    || (fwd == [OfferFrame(o)] && r == Reader(None, None, Free) && rsp == [])
    || (fwd == [] && r == Reader(None, Some(o), Free) && rsp == [Have(o.id)])
    || (Quiet(fwd, r) && rsp == [Have(o.id), Stored(o.id)])
    || (Quiet(fwd, r) && |rsp| == 1 && rsp[0].Error?)
    || (fwd == [] && r == Reader(Some(o), None, Free) && rsp == [Need(o.id)])
  }

  predicate HavePhase(o: Offer, fwd: seq<Frame>, r: Reader, rsp: seq<Frame>) {
    || (fwd == [] && r == Reader(None, Some(o), Free) && rsp == [])
    || (Quiet(fwd, r) && rsp == [Stored(o.id)])
  }

  predicate Terminal(o: Offer, f: Frame) { f == Stored(o.id) || f.Error? }

  predicate NeedPhase(o: Offer, fwd: seq<Frame>, r: Reader, rsp: seq<Frame>) {
    || (|fwd| == 1 && fwd[0].DataFrame? && fwd[0].id == o.id && Sound(o, fwd[0].data) && r == Reader(Some(o), None, Free) && rsp == [])
    || (fwd == [] && r.incoming == None && r.have == None && rsp == [] &&
        ((r.job.Installing? && r.job.o == o && Sound(o, r.job.data)) || (r.job.Replying? && Terminal(o, r.job.reply))))
    || (Quiet(fwd, r) && |rsp| == 1 && Terminal(o, rsp[0]))
  }

  // The direction from x to y.
  predicate Direction(x: Peer, y: Peer) {
    Phase(x.sender, Forwards(x.out), y.reader, x.responses + Answers(y.out))
  }

  predicate InStep(l: Link) {
    && l.a.fatal.None? && l.b.fatal.None?
    && Direction(l.a, l.b) && Direction(l.b, l.a)
  }

  // The side condition: a peer is not given a file larger than its own limit.
  predicate Fits(l: Link, s: Step) {
    s.Own? && s.a.DoConsider? && s.a.k in At(l, s.x).disk.files ==>
      |At(l, s.x).disk.files[s.a.k]| <= At(l, s.x).cfg.maxObject
  }

  // Both directions, seen from x, whose other end is y.
  predicate Both(x: Peer, y: Peer) {
    x.fatal.None? && y.fatal.None? && Direction(x, y) && Direction(y, x)
  }

  // ------------------------------------------------------- steps of x's sender

  lemma NextResponse(x: Peer, y: Peer)
    requires x.responses != []
    ensures var rsp := x.responses + Answers(y.out); rsp != [] && rsp[0] == x.responses[0] && rsp[1..] == x.responses[1..] + Answers(y.out)
  {
  }

  lemma FirstSteps(x: Peer, y: Peer)
    requires Both(x, y) && Can(x, DoFirst)
    ensures Both(TakeFirst(x), y)
  {
    NextResponse(x, y);
  }

  lemma SecondSteps(x: Peer, y: Peer)
    requires Both(x, y) && Can(x, DoSecond)
    ensures Both(TakeSecond(x), y)
  {
    NextResponse(x, y);
  }

  lemma ConsiderSteps(x: Peer, y: Peer, k: Key, fire: bool, age: Age)
    requires Both(x, y) && Can(x, DoConsider(k, fire, age)) && |x.disk.files[k]| <= x.cfg.maxObject
    ensures Both(Consider(x, k, fire, age), y)
  {
    var o := Offer(TransferId(k, Sha256(x.disk.files[k])), |x.disk.files[k]|);
    Appends(x.out, OfferFrame(o));
  }

  lemma DataSteps(x: Peer, y: Peer)
    requires Both(x, y) && Can(x, DoData)
    ensures Both(WriteData(x), y)
  {
    Appends(x.out, DataFrame(x.sender.o.id, x.sender.data));
  }

  // ---------------------------------------- steps of x as the receiver of y's object

  lemma AnswerSteps(x: Peer, y: Peer, f: Frame)
    requires Response(f)
    ensures Forwards(Write(x, f).out) == Forwards(x.out)
    ensures y.responses + Answers(Write(x, f).out) == y.responses + Answers(x.out) + [f]
  {
    Appends(x.out, f);
  }

  lemma FinishHaveSteps(x: Peer, y: Peer)
    requires Both(x, y) && Can(x, DoFinishHave)
    ensures Both(FinishHave(x), y)
  {
    AnswerSteps(x, y, Stored(x.reader.have.value.id));
  }

  lemma ReplySteps(x: Peer, y: Peer)
    requires Both(x, y) && Can(x, DoReply)
    ensures Both(Reply(x), y)
  {
    AnswerSteps(x, y, x.reader.job.reply);
  }

  lemma InstallSteps(x: Peer, y: Peer, v: Verdict)
    requires Both(x, y) && Can(x, DoInstall(v))
    ensures Both(Install(x, v), y)
  {
  }

  lemma OwnSteps(x: Peer, y: Peer, a: Action)
    requires Both(x, y) && Can(x, a)
    requires a.DoConsider? ==> |x.disk.files[a.k]| <= x.cfg.maxObject
    ensures Both(Do(x, a), y)
  {
    match a
    case DoConsider(k, fire, age) => ConsiderSteps(x, y, k, fire, age);
    case DoFirst => FirstSteps(x, y);
    case DoSecond => SecondSteps(x, y);
    case DoData => DataSteps(x, y);
    case DoFinish =>
    case DoInstall(v) => InstallSteps(x, y, v);
    case DoReply => ReplySteps(x, y);
    case DoFinishHave => FinishHaveSteps(x, y);
    case DoPing(e) => Appends(x.out, Ping(e));
    case Put(_, _) =>
    case Drop(_) =>
  }

  // ------------------------------------------------------------ x reads from y

  // What an object frame at the head of y's stream says of its direction.
  lemma HeadObject(y: Peer, x: Peer)
    requires Direction(y, x) && y.out != [] && Forward(y.out[0])
    ensures Forwards(y.out[1..]) == [] && Answers(y.out[1..]) == Answers(y.out) && y.responses + Answers(x.out) == []
    ensures y.out[0].OfferFrame? ==> y.sender.SFirst? && y.sender.o == y.out[0].o && x.reader == Reader(None, None, Free)
    ensures y.out[0].DataFrame? ==>
      && y.sender.SSecond? && y.sender.needed && y.sender.o.id == y.out[0].id && Sound(y.sender.o, y.out[0].data)
      && x.reader == Reader(Some(y.sender.o), None, Free)
  {
    assert Forwards(y.out)[0] == y.out[0] && Forwards(y.out)[1..] == Forwards(y.out[1..]);
  }

  // x answers y's offer with f.
  lemma OfferAnswered(x: Peer, y: Peer, r: Reader, f: Frame, x': Peer)
    requires Both(x, y) && y.out != [] && y.out[0].OfferFrame? && Response(f)
    requires x'.fatal == x.fatal && x'.sender == x.sender && x'.responses == x.responses && x'.out == x.out + [f] && x'.reader == r
    requires FirstPhase(y.out[0].o, [], r, [f])
    ensures Both(x', y.(out := y.out[1..]))
  {
    HeadObject(y, x);
    Appends(x.out, f);
    assert y.responses + Answers(x'.out) == [f] by { assert y.responses + Answers(x.out) == [] ; }
  }

  lemma ReadsOffer(x: Peer, y: Peer, expired: bool)
    requires Both(x, y) && x.reader.have.None? && y.out != [] && y.out[0].OfferFrame?
    ensures Both(OnFrame(x, y.out[0], expired), y.(out := y.out[1..]))
  {
    HeadObject(y, x);
    var o, x' := y.out[0].o, OnFrame(x, y.out[0], expired);
    match Refusal(x.cfg, o, expired)
    case Some(code) => OfferAnswered(x, y, x.reader, Error(code), x');
    case None =>
      if x'.reader.have.Some? {
        OfferAnswered(x, y, Reader(None, Some(o), Free), Have(o.id), x');
      } else {
        OfferAnswered(x, y, Reader(Some(o), None, Free), Need(o.id), x');
      }
  }

  lemma ReadsData(x: Peer, y: Peer, expired: bool)
    requires Both(x, y) && x.reader.have.None? && y.out != [] && y.out[0].DataFrame?
    ensures Both(OnFrame(x, y.out[0], expired), y.(out := y.out[1..]))
  {
    HeadObject(y, x);
  }

  lemma ReadsAnswer(x: Peer, y: Peer, expired: bool)
    requires Both(x, y) && x.reader.have.None? && y.out != [] && Response(y.out[0])
    ensures Both(OnFrame(x, y.out[0], expired), y.(out := y.out[1..]))
  {
    var f := y.out[0];
    assert Forwards(y.out) == Forwards(y.out[1..]) && Answers(y.out) == [f] + Answers(y.out[1..]);
    assert x.responses + Answers(y.out) == x.responses + [f] + Answers(y.out[1..]);
    assert x.responses + Answers(y.out) != [];
  }

  lemma ReadsPing(x: Peer, y: Peer, expired: bool)
    requires Both(x, y) && x.reader.have.None? && y.out != [] && !Response(y.out[0]) && !Forward(y.out[0])
    ensures Both(OnFrame(x, y.out[0], expired), y.(out := y.out[1..]))
  {
    if y.out[0].Ping? {
      Appends(x.out, Pong(y.out[0].epoch));
    }
  }

  lemma InStepKept(l: Link, s: Step)
    requires InStep(l) && Possible(l, s) && Fits(l, s)
    ensures InStep(After(l, s))
  {
    var x, y := At(l, s.x), At(l, Other(s.x));
    match s
    case Own(_, a) => OwnSteps(x, y, a);
    case Read(_, expired) =>
      if Forward(y.out[0]) {
        if y.out[0].OfferFrame? {
          ReadsOffer(x, y, expired);
        } else {
          ReadsData(x, y, expired);
        }
      } else if Response(y.out[0]) {
        ReadsAnswer(x, y, expired);
      } else {
        ReadsPing(x, y, expired);
      }
  }
}
