/**
  Why the side condition of the relay is needed: an ERROR about an oversized file
  carries no transfer id, the other side takes it for the answer to its own OFFER,
  and from then on every answer is one too late. From whatever state, some run
  that keeps to the size limit ever after ends in a fatal error.
*/
module RelayOversized {
  import opened Relay
  import opened RelayRuns
  import opened RelaySafety
  import opened Wrappers

  // Some run from l that keeps to the size limit ends in a fatal error.
  ghost predicate CanFail(l: Link) {
    exists steps, m :: Leads(l, steps, m) && (m.a.fatal.Some? || m.b.fatal.Some?)
  }

  lemma FailsNow(l: Link)
    requires l.a.fatal.Some? || l.b.fatal.Some?
    ensures CanFail(l)
  {
    assert Leads(l, [], l);
  }

  lemma FailsNext(l: Link, s: Step)
    requires Possible(l, s) && Fits(l, s) && CanFail(After(l, s))
    ensures CanFail(l)
  {
    var steps, m :| Leads(After(l, s), steps, m) && (m.a.fatal.Some? || m.b.fatal.Some?);
    assert ([s] + steps)[1..] == steps;
    assert Leads(l, [s] + steps, m);
  }

  // x still has to answer y, which is idle and awaits nothing.
  predicate Owes(x: Peer, y: Peer) {
    && x.fatal.None? && y.fatal.None? && x.out == [] && x.reader.have.None?
    && y.sender.SIdle? && y.reader.have.None?
    && (Answers(y.out) != [] ==> !x.sender.SIdle?)
  }

  // x reads what y sent before its object frame.
  lemma {:induction false} ReachObject(l: Link, x: Side) returns (m: Link)
    requires Owes(At(l, x), At(l, Other(x))) && Forwards(At(l, Other(x)).out) != []
    ensures Owes(At(m, x), At(m, Other(x))) && At(m, Other(x)).out != [] && Forward(At(m, Other(x)).out[0])
    ensures At(m, x).reader == At(l, x).reader && At(m, x).cfg == At(l, x).cfg && At(m, Other(x)).cfg == At(l, Other(x)).cfg
    ensures Forwards(At(m, Other(x)).out) == Forwards(At(l, Other(x)).out) && At(m, Other(x)).responses == At(l, Other(x)).responses
    ensures CanFail(m) ==> CanFail(l)
    decreases |At(l, Other(x)).out|
  {
    var p, q, y := At(l, x), At(l, Other(x)), Other(x);
    var f := q.out[0];
    if Forward(f) {
      m := l;
    } else {
      var n := After(l, Read(x, false));
      var n' := n;
      if f.Ping? {
        assert At(n, x).out == [Pong(f.epoch)];
        n' := After(n, Read(y, false));
      }
      m := ReachObject(n', x);
      if CanFail(m) {
        if f.Ping? {
          FailsNext(n, Read(y, false));
        }
        FailsNext(l, Read(x, false));
      }
    }
  }

  // ------------------------------------- y is idle while its OFFER is answered

  // The answer to an acceptable OFFER finds y idle.
  lemma AnswerTooLate(l: Link, x: Side)
    requires Owes(At(l, x), At(l, Other(x))) && At(l, x).reader == Reader(None, None, Free)
    requires var out := At(l, Other(x)).out;
      Forwards(out) != [] && Forwards(out)[0].OfferFrame? && Refusal(At(l, x).cfg, Forwards(out)[0].o, false).None?
    ensures CanFail(l)
  {
    var y := Other(x);
    var m := ReachObject(l, x);
    var o := At(m, y).out[0].o;
    var f := OfferShape(At(m, x), o, false);
    var n := After(m, Read(x, false));
    assert At(n, x).out == [f];
    FailsNow(After(n, Read(y, false)));
    FailsNext(n, Read(y, false));
    FailsNext(m, Read(x, false));
  }

  // ------------------------------------ y is idle and an unasked ERROR is on its way

  predicate Unasked(x: Peer, y: Peer) {
    && x.out != [] && x.out[0].Error? && Owes(x.(out := x.out[1..]), y)
  }

  // A spool file that y would offer and x would accept.
  predicate Welcome(x: Peer, y: Peer, k: Key) {
    k.class_ == Spool && HasDestination(x.cfg, k) && k !in y.memory.known && k !in y.memory.rejected && k !in y.memory.origins
  }

  lemma {:induction false} Longer(keys: set<Key>) returns (n: nat)
    ensures forall k :: k in keys ==> |k.basename| < n
    decreases |keys|
  {
    if keys == {} {
      n := 0;
    } else {
      var k :| k in keys;
      var rest := Longer(keys - {k});
      n := if |k.basename| < rest then rest else |k.basename| + 1;
    }
  }

  lemma WelcomeKey(x: Peer, y: Peer) returns (k: Key)
    ensures Welcome(x, y, k)
  {
    var n := Longer(y.memory.known.Keys + y.memory.rejected.Keys + y.memory.origins.Keys);
    var node := if x.cfg.role == Dial then x.cfg.downstream else x.cfg.downstream + "x";
    k := Key(Spool, "", node, "", seq(n, _ => 'a'));
    assert x.cfg.role == Serve ==> |node| != |x.cfg.downstream|;
  }

  // y is given a welcome file and offers it; the unasked ERROR is its answer.
  lemma IdleFails(l: Link, x: Side)
    requires Unasked(At(l, x), At(l, Other(x))) && At(l, x).reader == Reader(None, None, Free)
    requires Forwards(At(l, Other(x)).out) == [] && At(l, Other(x)).responses == [] && |At(l, x).out| == 1
    ensures CanFail(l)
  {
    var y := Other(x);
    var k := WelcomeKey(At(l, x), At(l, y));
    var put, consider := Own(y, Put(k, "")), Own(y, DoConsider(k, false, Age(false, false)));
    var l1 := After(l, put);
    var l2 := After(l1, consider);
    var o := Offer(TransferId(k, Sha256("")), 0);
    assert At(l2, y).out == At(l, y).out + [OfferFrame(o)];
    Appends(At(l, y).out, OfferFrame(o));
    MistakesFirst(l2, x);
    FailsNext(l1, consider);
    FailsNext(l, put);
  }

  // y takes the ERROR for the answer to its OFFER, which x will accept.
  lemma MistakesFirst(l: Link, x: Side)
    requires var p, q := At(l, x), At(l, Other(x));
      && q.sender.SFirst? && q.responses == [] && Unasked(p, q.(sender := SIdle)) && |p.out| == 1
      && p.reader == Reader(None, None, Free)
      && Forwards(q.out) == [OfferFrame(q.sender.o)] && Refusal(p.cfg, q.sender.o, false).None?
    ensures CanFail(l)
  {
    var y := Other(x);
    var l1 := After(l, Read(y, false));
    var l2 := After(l1, Own(y, DoFirst));
    assert At(l1, y).responses == At(l, x).out;
    AnswerTooLate(l2, x);
    FailsNext(l1, Own(y, DoFirst));
    FailsNext(l, Read(y, false));
  }

  // ------------------------------------------------ the same from any state

  // y has one answer too many; what x has in hand or is about to read of y's object
  // ends in an answer that finds y idle, or in a second unasked ERROR.
  predicate InHand(r: Reader) {
    r.have.None? && r.incoming.None? && (r.job.Installing? || (r.job.Replying? && (r.job.reply.Stored? || r.job.reply.Error?)))
  }

  lemma HandFails(l: Link, x: Side)
    requires Owes(At(l, x), At(l, Other(x))) && InHand(At(l, x).reader)
    requires Forwards(At(l, Other(x)).out) == [] && At(l, Other(x)).responses == []
    ensures CanFail(l)
  {
    if At(l, x).reader.job.Installing? {
      var install := Own(x, DoInstall(Verdict(false, false, false)));
      ReplyFails(After(l, install), x);
      FailsNext(l, install);
    } else {
      ReplyFails(l, x);
    }
  }

  lemma ReplyFails(l: Link, x: Side)
    requires Owes(At(l, x), At(l, Other(x))) && InHand(At(l, x).reader) && At(l, x).reader.job.Replying?
    requires Forwards(At(l, Other(x)).out) == [] && At(l, Other(x)).responses == []
    ensures CanFail(l)
  {
    var m := After(l, Own(x, DoReply));
    assert At(m, x).out == [At(l, x).reader.job.reply];
    AnswerFails(m, x);
    FailsNext(l, Own(x, DoReply));
  }

  // x has written the last frame of y's transfer, and y is idle.
  lemma AnswerFails(l: Link, x: Side)
    requires var p, q := At(l, x), At(l, Other(x));
      && |p.out| == 1 && (p.out[0].Stored? || p.out[0].Error?) && Owes(p.(out := []), q) && p.reader == Reader(None, None, Free)
      && Forwards(q.out) == [] && q.responses == []
    ensures CanFail(l)
  {
    if At(l, x).out[0].Error? {
      assert At(l, x).out[1..] == [];
      IdleFails(l, x);
    } else {
      FailsNow(After(l, Read(Other(x), false)));
      FailsNext(l, Read(Other(x), false));
    }
  }

  // x reads y's DATA.
  lemma DataFails(l: Link, x: Side)
    requires var p, q := At(l, x), At(l, Other(x));
      && Owes(p, q) && q.responses == [] && p.reader.incoming.Some? && p.reader.job.Free?
      && |Forwards(q.out)| == 1 && Forwards(q.out)[0].DataFrame? && Forwards(q.out)[0].id == p.reader.incoming.value.id
    ensures CanFail(l)
  {
    var y := Other(x);
    var m := ReachObject(l, x);
    var n := After(m, Read(x, false));
    HandFails(n, x);
    FailsNext(m, Read(x, false));
  }

  // x reads y's OFFER.
  lemma OfferFails(l: Link, x: Side)
    requires var p, q := At(l, x), At(l, Other(x));
      && Owes(p, q) && q.responses == [] && p.reader == Reader(None, None, Free)
      && |Forwards(q.out)| == 1 && Forwards(q.out)[0].OfferFrame?
    ensures CanFail(l)
  {
    var y := Other(x);
    var o := Forwards(At(l, y).out)[0].o;
    if Refusal(At(l, x).cfg, o, false).None? {
      AnswerTooLate(l, x);
    } else {
      var m := ReachObject(l, x);
      var n := After(m, Read(x, false));
      assert At(n, x).out == [Error(Refusal(At(l, x).cfg, o, false).value)];
      AnswerFails(n, x);
      FailsNext(m, Read(x, false));
    }
  }

  // ------------------------------------------------------- from any state at all

  function Told(l: Link, x: Side): Link {
    With(l, x, Write(At(l, x), Error(ObjectTooLarge)))
  }

  // y has read what came before the ERROR and waits for x, or for nothing.
  predicate Waiting(l: Link, x: Side) {
    var q := At(l, Other(x));
    && At(l, x).out == [] && q.reader.have.None? && q.responses == []
    && (q.sender.SIdle? || q.sender.SFirst? || q.sender.SSecond?)
  }

  lemma WaitingFails(l: Link, x: Side)
    requires InStep(l) && Waiting(l, x)
    ensures CanFail(Told(l, x))
  {
    var m, p, q, y := Told(l, x), At(l, x), At(l, Other(x)), Other(x);
    assert At(m, x).out == [Error(ObjectTooLarge)] && Answers([]) == [] && q.responses + Answers(p.out) == [];
    if q.sender.SIdle? {
      assert At(m, x).out[1..] == [];
      IdleFails(m, x);
    } else if p.reader.have.Some? {
      HadFails(m, x);
    } else {
      var take := if q.sender.SFirst? then DoFirst else DoSecond;
      var m1 := After(m, Read(y, false));
      var m2 := After(m1, Own(y, take));
      assert At(m1, y).responses == [Error(ObjectTooLarge)];
      assert Owes(At(m2, x), At(m2, y)) && At(m2, y).out == q.out && At(m2, x).reader == p.reader;
      if q.sender.SFirst? {
        OfferFails(m2, x);
      } else if Forwards(q.out) != [] {
        DataFails(m2, x);
      } else {
        HandFails(m2, x);
      }
      FailsNext(m1, Own(y, take));
      FailsNext(m, Read(y, false));
    }
  }

  // The ERROR comes between HAVE and its STORED.
  lemma HadFails(l: Link, x: Side)
    requires var p, q := At(l, x), At(l, Other(x));
      && p.fatal.None? && q.fatal.None? && p.out == [Error(ObjectTooLarge)] && p.reader.have.Some?
      && q.sender.SSecond? && q.reader.have.None? && q.responses == []
    ensures CanFail(l)
  {
    var y := Other(x);
    var l1 := After(l, Own(x, DoFinishHave));
    var l2 := After(l1, Read(y, false));
    var l3 := After(l2, Own(y, DoSecond));
    assert At(l2, x).out == [Stored(At(l, x).reader.have.value.id)];
    FailsNow(After(l3, Read(y, false)));
    FailsNext(l3, Read(y, false));
    FailsNext(l2, Own(y, DoSecond));
    FailsNext(l1, Read(y, false));
    FailsNext(l, Own(x, DoFinishHave));
  }

  // A step of y before the ERROR is read.
  predicate Before(l: Link, x: Side, s: Step) {
    && s.x == Other(x) && Possible(l, s) && Fits(l, s) && Protocol(s)
  }

  lemma BeforeTold(l: Link, x: Side, s: Step)
    requires Before(l, x, s)
    ensures Possible(Told(l, x), s) && Fits(Told(l, x), s) && After(Told(l, x), s) == Told(After(l, s), x)
  {
    if s.Read? {
      var out := At(l, x).out;
      assert (out + [Error(ObjectTooLarge)])[1..] == out[1..] + [Error(ObjectTooLarge)];
    }
  }

  lemma NextBefore(l: Link, x: Side) returns (s: Step)
    requires InStep(l) && !Waiting(l, x)
    ensures Before(l, x, s)
  {
    var q, y := At(l, Other(x)), Other(x);
    if q.reader.have.Some? {
      s := Own(y, DoFinishHave);
    } else if q.sender.SSend? {
      s := Own(y, DoData);
    } else if q.sender.SDone? {
      s := Own(y, DoFinish);
    } else if q.responses != [] {
      s := Own(y, if q.sender.SFirst? then DoFirst else DoSecond);
    } else {
      s := Read(y, false);
    }
  }

  lemma {:induction false} ToldFails(l: Link, x: Side)
    requires InStep(l)
    ensures CanFail(Told(l, x))
    decreases Work(l.a) + Work(l.b)
  {
    if Waiting(l, x) {
      WaitingFails(l, x);
    } else {
      var s := NextBefore(l, x);
      AlwaysFinishes(l);
      InStepKept(l, s);
      BeforeTold(l, x, s);
      ToldFails(After(l, s), x);
      FailsNext(Told(l, x), s);
    }
  }

  // The guard under which sendCandidate gives up on a file for its size.
  predicate TooLarge(p: Peer, k: Key, age: Age)
    requires k in p.disk.files
  {
    && (k.class_ == Stream ==> p.cfg.minor >= STREAM_MINOR) && (k.class_ == Mind ==> p.cfg.minor >= STATUS_MINOR)
    && !(Epochal(k) && age.expired) && |p.disk.files[k]| > p.cfg.maxObject
  }

  // In any state, of whatever is under way in either direction: considering a file is
  // safe if and only if it is not found too large.
  lemma OversizedExact(l: Link, x: Side, k: Key, fire: bool, age: Age)
    requires InStep(l) && Possible(l, Own(x, DoConsider(k, fire, age)))
    ensures CanFail(After(l, Own(x, DoConsider(k, fire, age)))) <==> TooLarge(At(l, x), k, age)
  {
    var s := Own(x, DoConsider(k, fire, age));
    var m := After(l, s);
    if TooLarge(At(l, x), k, age) {
      assert m == Told(l, x);
      ToldFails(l, x);
    } else {
      ConsiderKeeps(l, x, k, fire, age);
      forall steps, n | Leads(m, steps, n)
        ensures n.a.fatal.None? && n.b.fatal.None?
      {
        RunInStep(m, steps, n);
      }
    }
  }

  lemma ConsiderKeeps(l: Link, x: Side, k: Key, fire: bool, age: Age)
    requires InStep(l) && Possible(l, Own(x, DoConsider(k, fire, age))) && !TooLarge(At(l, x), k, age)
    ensures InStep(After(l, Own(x, DoConsider(k, fire, age))))
  {
    var s := Own(x, DoConsider(k, fire, age));
    if Fits(l, s) {
      InStepKept(l, s);
    } else {
      assert After(l, s) == l;
    }
  }

  // ---------------------------------------------------------------- such a run

  const SERVER := Config(Serve, "n", 2, 3)
  const DIALLER := Config(Dial, "n", 2, 3)
  const LARGE := Key(Spool, "", "n", "", "large")
  const SMALL := Key(Spool, "", "m", "", "small")

  function Holding(cfg: Config, k: Key, b: Bytes): Peer {
    Peer(cfg, Disk(map[k := b], {(k, b)}), SIdle, [], Reader(None, None, Free), Memory(map[], map[], map[]), [], None)
  }

  const START := Link(Holding(SERVER, LARGE, "aaaa"), Holding(DIALLER, SMALL, "b"))
  const OFFERED := Offer(TransferId(SMALL, Sha256("b")), 1)

  // B offers a small file, A meets a large one, B gives up on its own.
  function GivenUp(): Link {
    Link(START.a, START.b.(memory := Memory(map[], map[SMALL := OFFERED.id], map[]), out := [OfferFrame(OFFERED)]))
  }

  lemma GivesUp() returns (l1: Link, l2: Link, l3: Link)
    ensures Initial(START)
    ensures var s := Own(B, DoConsider(SMALL, false, Age(false, false))); Possible(START, s) && Fits(START, s) && l1 == After(START, s)
    ensures var s := Own(A, DoConsider(LARGE, false, Age(false, false))); Possible(l1, s) && TooLarge(l1.a, LARGE, Age(false, false)) && l2 == After(l1, s)
    ensures Possible(l2, Read(B, false)) && l3 == After(l2, Read(B, false))
    ensures Possible(l3, Own(B, DoFirst)) && GivenUp() == After(l3, Own(B, DoFirst))
  {
    l1 := START.(b := START.b.(sender := SFirst(OFFERED, "b", false), out := [OfferFrame(OFFERED)]));
    l2 := l1.(a := Write(l1.a, Error(ObjectTooLarge)));
    l3 := l1.(b := l1.b.(responses := [Error(ObjectTooLarge)]));
    assert (map[SMALL := "b"])[SMALL] == "b" && (map[LARGE := "aaaa"])[LARGE] == "aaaa";
    assert l2.a.out[1..] == l1.a.out && l3.b.responses[1..] == START.b.responses;
  }

  // Then A asks for the file B no longer offers, and B ends the relay.
  lemma LargeFileEndsRelay() returns (l1: Link, l2: Link, l3: Link, l5: Link, l6: Link)
    ensures Initial(START)
    ensures var s := Own(B, DoConsider(SMALL, false, Age(false, false))); Possible(START, s) && Fits(START, s) && l1 == After(START, s)
    ensures var s := Own(A, DoConsider(LARGE, false, Age(false, false))); Possible(l1, s) && TooLarge(l1.a, LARGE, Age(false, false)) && l2 == After(l1, s)
    ensures Possible(l2, Read(B, false)) && l3 == After(l2, Read(B, false))
    ensures Possible(l3, Own(B, DoFirst)) && GivenUp() == After(l3, Own(B, DoFirst))
    ensures Possible(GivenUp(), Read(A, false)) && l5 == After(GivenUp(), Read(A, false))
    ensures Possible(l5, Read(B, false)) && l6 == After(l5, Read(B, false)) && l6.b.fatal == Some(UnexpectedResponse)
  {
    l1, l2, l3 := GivesUp();
    l5 := After(GivenUp(), Read(A, false));
    assert l5.a.out == [Need(OFFERED.id)];
    l6 := After(l5, Read(B, false));
  }
}
