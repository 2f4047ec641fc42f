/**
  The sending side: where a sent message is, what an acknowledgement or a bounce
  proves, and what one key of a keyed send stands for.
*/
module MailSender {
  import opened MailModel
  import opened MailSafety
  import opened SendRecord

  // id was installed in its recipient's inbox at some time.
  ghost predicate Arrived(s: Net, id: Id) {
    id in s.sent && s.sent[id].dst in s.nodes && id in s.nodes[s.sent[id].dst].box.installs
  }

  // ---------------------------------------------------------- typing, any clocks

  ghost predicate Base(s: Net) {
    && SentOk(s.sent) && DestOk(s) && FilesOk(s.sent, s.ever)
    && forall k :: k in s.nodes ==> NodeOk(s.sent, k, s.nodes[k]) && s.nodes[k].spool <= s.ever
  }

  lemma BaseSent(s: Net, e: Event, skew: int)
    requires Base(s) && Possible(s, e, skew)
    ensures Extends(s.sent, After(s, e, skew).sent)
    ensures SentOk(After(s, e, skew).sent) && DestOk(After(s, e, skew))
  {
    assert NodeOk(s.sent, e.who, s.nodes[e.who]);
    SentAdds(s, e, skew);
    assert After(s, e, skew).sent == SentAfter(s, e) && s.nodes.Keys <= After(s, e, skew).nodes.Keys;
  }

  lemma BaseStep(s: Net, e: Event, skew: int)
    requires Base(s) && Possible(s, e, skew)
    ensures Base(After(s, e, skew))
  {
    var t := After(s, e, skew);
    BaseSent(s, e, skew);
    NodeOkGrows(s.sent, t.sent, e.who, s.nodes[e.who]);
    if e.Local? {
      ApplyOk(t.sent, e.who, s.nodes[e.who], e.a);
    }
    assert NodeOk(t.sent, e.who, t.nodes[e.who]);
    forall k | k in t.nodes && k != e.who
      ensures NodeOk(t.sent, k, t.nodes[k])
    {
      NodeOkGrows(s.sent, t.sent, k, s.nodes[k]);
    }
    assert FilesOk(t.sent, s.ever) by {
      forall f | f in s.ever
        ensures FileOk(t.sent, f)
      {
        assert FileOk(s.sent, f);
      }
    }
  }

  // ------------------------------------------------------------- one sender

  function One(b: bool): nat { if b then 1 else 0 }

  // In how many places of the outbox id is: new, acked, dead, or removed by retention.
  function Places(o: Outbox, id: Id): nat {
    One(id in o.new_) + One(id in o.acked) + One(id in o.dead) + One(id in o.retired)
  }

  // Every Id ever linked into outbox/new is in exactly one place, no other in any.
  ghost predicate Accounted(o: Outbox) {
    forall id :: Places(o, id) == One(id in o.enqueued)
  }

  // Only installed messages are acknowledged; only bounced ones are dead.
  ghost predicate Proven(done: set<Id>, ever: set<File>, n: NodeState) {
    && n.out.acked.Keys <= done
    && (forall id :: id in n.out.dead ==> Bounce(id, n.name) in ever)
    && (forall id :: id in n.out.retired ==> id in done || Bounce(id, n.name) in ever)
    && (n.pc.Expiring? ==> Bounce(n.pc.m.id, n.name) in ever)
  }

  // What the recipient's own records say was installed.
  ghost predicate Honest(n: NodeState) {
    && (forall line :: line in n.box.log ==> line.id in n.box.installs)
    && (forall id :: InInbox(n.box, id) ==> id in n.box.installs)
    && (n.pc.Installed? || n.pc.Logged? || n.pc.Acked? ==> n.pc.m.id in n.box.installs)
  }

  // What the keyed send knows at each point.
  predicate LookOk(n: NodeState) {
    var k := n.keyed;
    k.rpc.RIdle? ||
    (Holds(k) &&
     var m := k.requests[k.rpc.key].m;
     match k.rpc
     case RLookAcked(_) => m.id !in n.out.new_
     case RLookDead(_) => m.id !in n.out.new_ && m.id !in n.out.acked
     case RMissing(_) => InNone(n.out, m.id)
     case RReady(_, now) => InNone(n.out, m.id) && now < m.expires
     case RFound(_) => m.id in n.out.enqueued
     case RMarked(_) => m.id in n.out.enqueued
     case RCopy(_) => m.id in n.out.enqueued
     case RReply(_) => m.id in n.out.enqueued
     case _ => true)
  }

  predicate RecordsOk(n: NodeState) {
    forall key :: key in n.keyed.requests ==>
      var r := n.keyed.requests[key];
      && Sound(r.args) && (r.input == Canonical(r.args) || r.input == Legacy(r.args))
      && (r.published ==> r.m.id in n.out.enqueued)
  }

  // The same key is taken for a retry exactly when the call is the same.
  lemma RetryIsSameCall(n: NodeState, key: string, args: SendArgs)
    requires RecordsOk(n) && key in n.keyed.requests && Sound(args)
    ensures Matches(n.keyed.requests[key].input, args) <==> args == n.keyed.requests[key].args
  {
    var r := n.keyed.requests[key];
    MatchesExactly(r.args, r.input != Canonical(r.args), args);
  }

  predicate OneKeyPerId(n: NodeState) {
    var r := n.keyed.requests;
    forall a, b :: a in r && b in r && a != b ==> r[a].m.id != r[b].m.id
  }

  // Every success reported the key's own Id, and that message had been queued.
  predicate AnswersOk(n: NodeState) {
    forall a :: a in n.keyed.answers && a.Sent? ==>
      a.key in n.keyed.requests && n.keyed.requests[a.key].m.id == a.id && a.id in n.out.enqueued
  }

  lemma EnqueueAccounted(n: NodeState, m: Message)
    requires Accounted(n.out) && InNone(n.out, m.id)
    ensures Accounted(Enqueue(n, m).out)
  {
    var o, o' := n.out, Enqueue(n, m).out;
    assert Places(o, m.id) == One(m.id in o.enqueued);
    forall id
      ensures Places(o', id) == One(id in o'.enqueued)
    {
      assert Places(o, id) == One(id in o.enqueued);
    }
  }

  lemma SettleAccounted(n: NodeState, a: SettleStep)
    requires Accounted(n.out) && CanSettle(n, a)
    ensures Accounted(Settle(n, a).out) && Settle(n, a).out.enqueued == n.out.enqueued
  {
    var o, o' := n.out, Settle(n, a).out;
    forall id
      ensures Places(o', id) == One(id in o'.enqueued)
    {
      assert Places(o, id) == One(id in o.enqueued);
    }
  }

  lemma RetainAccounted(n: NodeState, a: RetainStep)
    requires Accounted(n.out) && CanRetain(n, a)
    ensures Accounted(Retain(n, a).out) && Retain(n, a).out.enqueued == n.out.enqueued
  {
    var o, o' := n.out, Retain(n, a).out;
    forall id
      ensures Places(o', id) == One(id in o'.enqueued)
    {
      assert Places(o, id) == One(id in o.enqueued);
    }
  }

  // A keyed send touches the outbox only by linking its own message, and only
  // when that message is nowhere in it.
  lemma KeyedOutbox(n: NodeState, q: KeyedStep)
    requires LookOk(n) && CanKeyed(n, q)
    ensures KeyedSend(n, q).out == n.out ||
            (q.Link? && InNone(n.out, Current(n).id) && KeyedSend(n, q).out == Enqueue(n, Current(n)).out)
  {
  }

  lemma AccountedApplies(sent: map<Id, Message>, n: NodeState, a: Action)
    requires Accounted(n.out) && LookOk(n) && Enabled(n, a) && n.out.enqueued <= sent.Keys
    requires RequestsOk(sent, n.name, n.keyed.requests)
    requires forall m :: m in Prepared(a) ==> m.id !in sent
    ensures Accounted(Apply(n, a).out)
    ensures Apply(n, a).out.enqueued <= NewSent(sent, a).Keys
  {
    match a
    case Post(m) =>
      assert m in Prepared(a);
      assert Places(n.out, m.id) == 0;
      EnqueueAccounted(n, m);
    case Settlement(s) => SettleAccounted(n, s);
    case Retention(r) => RetainAccounted(n, r);
    case KeyedAction(q) =>
      KeyedOutbox(n, q);
      if q.Link? && InNone(n.out, Current(n).id) {
        EnqueueAccounted(n, Current(n));
      }
    case _ =>
  }

  lemma ProvenApplies(done: set<Id>, ever: set<File>, n: NodeState, a: Action)
    requires Proven(done, ever, n) && Enabled(n, a) && n.spool <= ever && LookOk(n) && ReturnsOk(n.pc)
    requires forall f :: f in ever && f.Ack? ==> f.ref in done
    requires forall id :: id in n.out.new_ ==> n.out.new_[id].id == id
    ensures Proven(done, ever + Apply(n, a).spool, Apply(n, a))
  {
    match a
    case Settlement(s) => ProvenSettles(done, ever, n, s);
    case Retention(r) =>
    case KeyedAction(q) => KeyedOutbox(n, q);
    case _ =>
  }

  lemma ProvenSettles(done: set<Id>, ever: set<File>, n: NodeState, a: SettleStep)
    requires Proven(done, ever, n) && CanSettle(n, a) && n.spool <= ever && ReturnsOk(n.pc)
    requires forall f :: f in ever && f.Ack? ==> f.ref in done
    requires forall id :: id in n.out.new_ ==> n.out.new_[id].id == id
    ensures Proven(done, ever + Settle(n, a).spool, Settle(n, a))
  {
    if a.SettleMove? {
      assert Ack(a.ref, n.name) in ever;
    }
  }

  lemma HonestApplies(n: NodeState, a: Action)
    requires Honest(n) && Enabled(n, a) && ReturnsOk(n.pc)
    ensures Honest(Apply(n, a))
    ensures forall id :: id in n.box.installs ==> id in Apply(n, a).box.installs
    ensures forall f :: f in Apply(n, a).spool && f !in n.spool && f.Ack? ==> f.ref in n.box.installs
  {
    match a
    case Delivery(d) => HonestDelivers(n, d);
    case Retention(r) =>
      if r.PruneLog? {
        forall line
          ensures line in Kept(n.box.log, r.now - LOG_KEEP) ==> line in n.box.log
        {
          KeptExact(n.box.log, r.now - LOG_KEEP, line);
        }
      }
    case KeyedAction(q) => assert KeyedSend(n, q).box == n.box && KeyedSend(n, q).pc == n.pc;
    case _ =>
  }

  lemma HonestDelivers(n: NodeState, d: DeliverStep)
    requires Honest(n) && CanDeliver(n, d)
    ensures Honest(Deliver(n, d))
    ensures forall id :: id in n.box.installs ==> id in Deliver(n, d).box.installs
    ensures forall f :: f in Deliver(n, d).spool && f !in n.spool && f.Ack? ==> f.ref in n.box.installs
  {
    if d.FindLogged? {
      var line :| line in n.box.log && line.id == n.pc.m.id;
    }
  }

  // Queued messages only move on to acked or dead.
  predicate OnlyForward(o: Outbox, o': Outbox) {
    && o'.new_.Keys <= o.new_.Keys
    && o'.acked.Keys <= o.acked.Keys + o.new_.Keys
    && o'.dead.Keys <= o.dead.Keys + o.new_.Keys
    && o.enqueued <= o'.enqueued
  }

  lemma LookFramed(n: NodeState, n': NodeState)
    requires LookOk(n) && n'.keyed == n.keyed && OnlyForward(n.out, n'.out)
    ensures LookOk(n')
  {
  }

  lemma MovesForward(n: NodeState, a: Action)
    requires Enabled(n, a) && !a.Post? && !a.KeyedAction?
    ensures OnlyForward(n.out, Apply(n, a).out)
  {
  }

  lemma LookPosted(sent: map<Id, Message>, n: NodeState, m: Message)
    requires LookOk(n) && m.id !in sent && RequestsOk(sent, n.name, n.keyed.requests)
    ensures LookOk(Enqueue(n, m))
  {
  }

  // Other actions do not disturb what a keyed send has seen: a queued message
  // moves only forward, and only this send links its own message.
  lemma LookApplies(sent: map<Id, Message>, n: NodeState, a: Action)
    requires LookOk(n) && RecordsOk(n) && Enabled(n, a) && Accounted(n.out)
    requires RequestsOk(sent, n.name, n.keyed.requests)
    requires forall m :: m in Prepared(a) ==> m.id !in sent
    ensures LookOk(Apply(n, a))
  {
    match a
    case Post(m) =>
      assert m in Prepared(a);
      LookPosted(sent, n, m);
    case KeyedAction(q) => LookKeyed(n, q);
    case CrashRequest =>
    case _ =>
      MovesForward(n, a);
      NotKeyed(n, a);
      LookFramed(n, Apply(n, a));
  }

  lemma LookKeyed(n: NodeState, q: KeyedStep)
    requires LookOk(n) && RecordsOk(n) && CanKeyed(n, q) && Accounted(n.out)
    ensures LookOk(KeyedSend(n, q))
  {
    if Holds(n.keyed) {
      var id := Current(n).id;
      assert Places(n.out, id) == One(id in n.out.enqueued);
    }
  }

  lemma KeysApplies(sent: map<Id, Message>, n: NodeState, a: Action)
    requires LookOk(n) && RecordsOk(n) && OneKeyPerId(n) && AnswersOk(n) && Enabled(n, a)
    requires RequestsOk(sent, n.name, n.keyed.requests)
    requires forall m :: m in Prepared(a) ==> m.id !in sent
    ensures RecordsOk(Apply(n, a)) && OneKeyPerId(Apply(n, a)) && AnswersOk(Apply(n, a))
  {
    match a
    case KeyedAction(q) =>
      assert q.Bind? ==> q.m in Prepared(a);
      RecordsKeyed(n, q);
      DistinctKeyed(sent, n, q);
      AnswersKeyed(n, q);
    case CrashRequest =>
    case _ => NotKeyed(n, a);
  }

  // Only keyed sends write request records, and an Id once queued stays on record.
  lemma NotKeyed(n: NodeState, a: Action)
    requires Enabled(n, a) && !a.KeyedAction? && !a.CrashRequest?
    ensures Apply(n, a).keyed == n.keyed && n.out.enqueued <= Apply(n, a).out.enqueued
  {
  }

  lemma RecordsKeyed(n: NodeState, q: KeyedStep)
    requires LookOk(n) && RecordsOk(n) && CanKeyed(n, q)
    ensures RecordsOk(KeyedSend(n, q))
  {
    KeyedOutbox(n, q);
    if q.Resume? {
      RetryIsSameCall(n, q.key, q.args);
    }
    assert forall key :: key in n.keyed.requests && n.keyed.requests[key].published ==>
      n.keyed.requests[key].m.id in n.out.enqueued;
  }

  lemma DistinctKeyed(sent: map<Id, Message>, n: NodeState, q: KeyedStep)
    requires OneKeyPerId(n) && CanKeyed(n, q) && RequestsOk(sent, n.name, n.keyed.requests)
    requires q.Bind? ==> q.m.id !in sent
    ensures OneKeyPerId(KeyedSend(n, q))
  {
    KeyBinding(n, q);
  }

  // A key, once bound, keeps its message and its arguments for ever.
  lemma KeyBinding(n: NodeState, q: KeyedStep)
    requires CanKeyed(n, q)
    ensures forall key :: key in n.keyed.requests ==>
      && key in KeyedSend(n, q).keyed.requests
      && KeyedSend(n, q).keyed.requests[key].m == n.keyed.requests[key].m
      && KeyedSend(n, q).keyed.requests[key].args == n.keyed.requests[key].args
    ensures forall key :: key in KeyedSend(n, q).keyed.requests && key !in n.keyed.requests ==>
      q.Bind? && key == q.key && KeyedSend(n, q).keyed.requests[key].m == q.m
  {
  }

  lemma AnswersKeyed(n: NodeState, q: KeyedStep)
    requires LookOk(n) && RecordsOk(n) && AnswersOk(n) && CanKeyed(n, q)
    ensures AnswersOk(KeyedSend(n, q))
  {
    KeyBinding(n, q);
    KeyedOutbox(n, q);
  }

  // ------------------------------------------------------------ every run

  ghost function Done(s: Net): set<Id> {
    set id | id in s.sent && Arrived(s, id)
  }

  ghost predicate SenderAt(sent: map<Id, Message>, done: set<Id>, ever: set<File>, n: NodeState) {
    && Accounted(n.out) && n.out.enqueued <= sent.Keys
    && Proven(done, ever, n)
    && Honest(n) && LookOk(n)
    && RecordsOk(n) && OneKeyPerId(n) && AnswersOk(n)
  }

  ghost predicate SenderOk(s: Net, k: Node)
    requires k in s.nodes
  {
    SenderAt(s.sent, Done(s), s.ever, s.nodes[k])
  }

  // More may be sent, done and on record; spool and clock do not matter.
  lemma SenderGrows(sent: map<Id, Message>, done: set<Id>, ever: set<File>, n: NodeState,
                    sent': map<Id, Message>, done': set<Id>, ever': set<File>, n': NodeState)
    requires SenderAt(sent, done, ever, n) && n' == n.(spool := n'.spool, clock := n'.clock)
    requires sent.Keys <= sent'.Keys && done <= done' && ever <= ever'
    ensures SenderAt(sent', done', ever', n')
  {
  }

  lemma SenderActs(sent: map<Id, Message>, done: set<Id>, ever: set<File>, n: NodeState, a: Action)
    requires SenderAt(sent, done, ever, n) && NodeOk(sent, n.name, n) && Enabled(n, a) && n.spool <= ever
    requires forall m :: m in Prepared(a) ==> m.id !in sent
    requires forall f :: f in ever && f.Ack? ==> f.ref in done
    ensures SenderAt(NewSent(sent, a), done, ever + Apply(n, a).spool, Apply(n, a))
  {
    AccountedApplies(sent, n, a);
    HonestApplies(n, a);
    LookApplies(sent, n, a);
    KeysApplies(sent, n, a);
    ProvenApplies(done, ever, n, a);
  }

  ghost predicate Truth(s: Net) {
    && Base(s)
    && (forall f :: f in s.ever && f.Ack? ==> Arrived(s, f.ref))
    && (forall k :: k in s.nodes ==> SenderOk(s, k))
  }

  lemma TruthLocal(s: Net, e: Event, skew: int)
    requires Truth(s) && Possible(s, e, skew) && e.Local? && Done(s) <= Done(After(s, e, skew))
    ensures SenderOk(After(s, e, skew), e.who)
  {
    var t, k, n := After(s, e, skew), e.who, s.nodes[e.who];
    assert SenderOk(s, k) && NodeOk(s.sent, k, n) && n.spool <= s.ever;
    PreparedUnknown(s, e, skew);
    assert forall f :: f in s.ever && f.Ack? ==> f.ref in Done(s);
    SenderActs(s.sent, Done(s), s.ever, n, e.a);
    SenderGrows(t.sent, Done(s), t.ever, t.nodes[k], t.sent, Done(t), t.ever, t.nodes[k]);
  }

  lemma DoneLocal(s: Net, e: Event, skew: int)
    requires Truth(s) && Possible(s, e, skew) && e.Local?
    ensures Done(s) <= Done(After(s, e, skew))
  {
    assert Honest(s.nodes[e.who]) by { assert SenderOk(s, e.who); }
    Facts(s, e.who);
    BaseSent(s, e, skew);
    HonestApplies(s.nodes[e.who], e.a);
    DoneGrows(s, After(s, e, skew), e.who);
  }

  lemma AcksLocal(s: Net, e: Event, skew: int)
    requires Truth(s) && Possible(s, e, skew) && e.Local? && Done(s) <= Done(After(s, e, skew))
    ensures forall f :: f in After(s, e, skew).ever && f.Ack? ==> Arrived(After(s, e, skew), f.ref)
  {
    var t := After(s, e, skew);
    forall f | f in t.ever && f.Ack?
      ensures Arrived(t, f.ref)
    {
      if f in s.ever {
        assert f.ref in Done(s);
      } else {
        AckIsLocal(s, e, skew, f);
      }
    }
  }

  lemma PreparedUnknown(s: Net, e: Event, skew: int)
    requires Possible(s, e, skew) && e.Local?
    ensures forall m :: m in Prepared(e.a) ==> m.id !in s.sent
  {
    forall m | m in Prepared(e.a)
      ensures m.id !in s.sent
    {
      assert Fresh(s, m, skew);
    }
  }

  lemma DoneGrows(s: Net, t: Net, k: Node)
    requires k in s.nodes && k in t.nodes && Extends(s.sent, t.sent) && t.nodes == s.nodes[k := t.nodes[k]]
    requires forall id :: id in s.nodes[k].box.installs ==> id in t.nodes[k].box.installs
    ensures Done(s) <= Done(t)
  {
  }

  // A new acknowledgement is its recipient's own.
  lemma NewAckInstalled(sent: map<Id, Message>, k: Node, n: NodeState, a: Action, f: File)
    requires NodeOk(sent, k, n) && Honest(n) && Enabled(n, a)
    requires f in Apply(n, a).spool && f !in n.spool && f.Ack?
    ensures f.ref in sent && sent[f.ref].dst == k && f.ref in Apply(n, a).box.installs
  {
    NewAckIsLocal(sent, k, n, a, f);
    HonestApplies(n, a);
  }

  lemma AckIsLocal(s: Net, e: Event, skew: int, f: File)
    requires Truth(s) && Possible(s, e, skew) && e.Local? && f in After(s, e, skew).ever && f !in s.ever && f.Ack?
    ensures Arrived(After(s, e, skew), f.ref)
  {
    assert Honest(s.nodes[e.who]) && s.nodes[e.who].spool <= s.ever by { assert SenderOk(s, e.who); }
    NewAckInstalled(s.sent, e.who, s.nodes[e.who], e.a, f);
    BaseSent(s, e, skew);
    assert After(s, e, skew).nodes[e.who] == Apply(s.nodes[e.who], e.a);
  }

  lemma TruthElsewhere(s: Net, e: Event, skew: int, k: Node)
    requires Truth(s) && Possible(s, e, skew) && k in s.nodes && (k != e.who || !e.Local?)
    requires Done(s) <= Done(After(s, e, skew))
    ensures SenderOk(After(s, e, skew), k)
  {
    var t := After(s, e, skew);
    BaseSent(s, e, skew);
    assert SenderOk(s, k);
    SenderGrows(s.sent, Done(s), s.ever, s.nodes[k], t.sent, Done(t), t.ever, t.nodes[k]);
  }

  lemma OutsideKeeps(s: Net, e: Event, skew: int)
    requires Possible(s, e, skew) && !e.Local? && s.nodes[e.who].spool <= s.ever
    ensures var n := NodeAfter(s, e, skew);
      n.box == s.nodes[e.who].box && After(s, e, skew) == Net(s.nodes[e.who := n], s.ever, s.sent)
  {
    assert s.ever + NodeAfter(s, e, skew).spool == s.ever;
  }

  // The environment takes no acknowledged installation back.
  lemma TruthOutside(s: Net, e: Event, skew: int)
    requires Truth(s) && Possible(s, e, skew) && !e.Local?
    ensures Done(s) <= Done(After(s, e, skew))
    ensures forall f :: f in After(s, e, skew).ever && f.Ack? ==> Arrived(After(s, e, skew), f.ref)
  {
    OutsideKeeps(s, e, skew);
    DoneGrows(s, After(s, e, skew), e.who);
    assert forall f :: f in s.ever && f.Ack? ==> f.ref in Done(s);
  }

  lemma TruthStep(s: Net, e: Event, skew: int)
    requires Truth(s) && Possible(s, e, skew)
    ensures Truth(After(s, e, skew))
  {
    var t := After(s, e, skew);
    BaseStep(s, e, skew);
    if e.Local? {
      DoneLocal(s, e, skew);
      TruthLocal(s, e, skew);
      AcksLocal(s, e, skew);
    } else {
      TruthOutside(s, e, skew);
    }
    forall k | k in t.nodes
      ensures SenderOk(t, k)
    {
      if k != e.who || !e.Local? {
        TruthElsewhere(s, e, skew, k);
      }
    }
  }

  lemma {:induction false} TruthRun(s: Net, es: seq<Event>, t: Net, skew: int)
    requires Truth(s) && Leads(s, es, t, skew)
    ensures Truth(t)
    decreases |es|
  {
    if es != [] {
      TruthStep(s, es[0], skew);
      TruthRun(After(s, es[0], skew), es[1..], t, skew);
    }
  }

  lemma TruthInitial(s: Net)
    requires Initial(s)
    ensures Truth(s)
  {
    forall k | k in s.nodes
      ensures SenderOk(s, k) && NodeOk(s.sent, k, s.nodes[k]) && s.nodes[k].spool <= s.ever
    {
    }
  }

  lemma TruthReached(t: Net, skew: int)
    requires Reachable(t, skew)
    ensures Truth(t)
  {
    var s, es :| Initial(s) && Leads(s, es, t, skew);
    TruthInitial(s);
    TruthRun(s, es, t, skew);
  }

  // Where every message a node ever queued is, and what that proves, whatever the
  // clocks do.
  lemma EveryMessageAccounted(t: Net, skew: int, k: Node, id: Id)
    requires Reachable(t, skew) && k in t.nodes
    ensures var o := t.nodes[k].out;
      && Places(o, id) == One(id in o.enqueued)
      && (id in o.acked ==> Arrived(t, id))
      && (id in o.dead ==> Bounce(id, k) in t.ever)
      && (id in o.enqueued ==> id in o.new_ || Arrived(t, id) || Bounce(id, k) in t.ever)
  {
    TruthReached(t, skew);
    assert SenderOk(t, k) && NodeOk(t.sent, k, t.nodes[k]);
    assert Places(t.nodes[k].out, id) == One(id in t.nodes[k].out.enqueued);
  }

  // Only expired messages are dead.
  predicate Late(n: NodeState) {
    (n.pc.Expiring? ==> n.pc.m.expires <= n.clock) && forall id :: id in n.out.dead ==> n.out.dead[id].expires <= n.clock
  }

  lemma LateApplies(n: NodeState, a: Action)
    requires Late(n) && Enabled(n, a) && LookOk(n)
    requires ReturnsOk(n.pc)
    ensures Late(Apply(n, a))
  {
    match a
    case KeyedAction(q) => KeyedOutbox(n, q);
    case Settlement(s) => assert Settle(n, s).pc.Expiring? ==> s.ExpireBounce?;
    case _ =>
  }

  // What the run lemmas below need of a node.
  lemma Facts(s: Net, k: Node)
    requires Truth(s) && k in s.nodes
    ensures Accounted(s.nodes[k].out) && LookOk(s.nodes[k]) && s.nodes[k].name == k && ReturnsOk(s.nodes[k].pc)
    ensures RequestsOk(s.sent, k, s.nodes[k].keyed.requests) && s.nodes[k].out.enqueued <= s.sent.Keys
    ensures BoxOk(s.sent, k, s.nodes[k].out.dead)
  {
    assert SenderOk(s, k) && NodeOk(s.sent, k, s.nodes[k]);
  }

  ghost predicate AllLate(s: Net) {
    forall k :: k in s.nodes ==> Late(s.nodes[k])
  }

  lemma LateStep(s: Net, e: Event, skew: int)
    requires Truth(s) && Possible(s, e, skew) && AllLate(s)
    ensures AllLate(After(s, e, skew))
  {
    Facts(s, e.who);
    if e.Local? {
      LateApplies(s.nodes[e.who], e.a);
    }
    assert Late(NodeAfter(s, e, skew));
  }

  lemma {:induction false} RunLate(s: Net, es: seq<Event>, t: Net, skew: int)
    requires Truth(s) && Leads(s, es, t, skew) && AllLate(s)
    ensures AllLate(t)
    decreases |es|
  {
    if es != [] {
      TruthStep(s, es[0], skew);
      LateStep(s, es[0], skew);
      RunLate(After(s, es[0], skew), es[1..], t, skew);
    }
  }

  // id has been declared undeliverable, and no keyed send is about to link it.
  predicate Over(sent: map<Id, Message>, n: NodeState, id: Id) {
    && id !in n.out.new_ && id !in n.out.acked && (id in n.out.dead || id in n.out.retired)
    && id in sent && sent[id].expires <= n.clock
    && (n.keyed.rpc.RReady? && Holds(n.keyed) ==> Current(n).id != id)
  }

  lemma DeadIsOver(sent: map<Id, Message>, n: NodeState, id: Id)
    requires Accounted(n.out) && LookOk(n) && Late(n) && BoxOk(sent, n.name, n.out.dead) && id in n.out.dead
    ensures Over(sent, n, id)
  {
    assert Places(n.out, id) == One(id in n.out.enqueued);
    assert Known(sent, n.out.dead[id]);
  }

  lemma OverApplies(sent: map<Id, Message>, n: NodeState, a: Action, id: Id)
    requires Over(sent, n, id) && Enabled(n, a) && LookOk(n) && RequestsOk(sent, n.name, n.keyed.requests)
    requires a.Post? ==> a.m.id != id
    ensures Over(sent, Apply(n, a), id)
    ensures id in n.out.dead && a != Retention(PruneOut(id)) ==> id in Apply(n, a).out.dead
  {
    match a
    case KeyedAction(q) => OverKeyed(sent, n, q, id);
    case _ =>
  }

  lemma OverKeyed(sent: map<Id, Message>, n: NodeState, q: KeyedStep, id: Id)
    requires Over(sent, n, id) && CanKeyed(n, q) && LookOk(n) && RequestsOk(sent, n.name, n.keyed.requests)
    ensures Over(sent, KeyedSend(n, q), id) && KeyedSend(n, q).out.dead == n.out.dead
  {
    KeyedOutbox(n, q);
    if q.ReadExpiry? {
      assert Known(sent, Current(n));
    }
  }

  lemma OverStep(s: Net, e: Event, skew: int, k: Node, id: Id)
    requires Truth(s) && Possible(s, e, skew) && k in s.nodes && Over(s.sent, s.nodes[k], id)
    ensures Over(After(s, e, skew).sent, After(s, e, skew).nodes[k], id)
    ensures id in s.nodes[k].out.dead && e != Local(k, Retention(PruneOut(id))) ==> id in After(s, e, skew).nodes[k].out.dead
  {
    BaseSent(s, e, skew);
    if e.who == k {
      Facts(s, k);
      OverHere(s, e, skew, id);
    }
    OverSent(s.sent, After(s, e, skew).sent, After(s, e, skew).nodes[k], id);
  }

  lemma OverSent(sent: map<Id, Message>, sent': map<Id, Message>, n: NodeState, id: Id)
    requires Over(sent, n, id) && Extends(sent, sent')
    ensures Over(sent', n, id)
  {
  }

  lemma OverHere(s: Net, e: Event, skew: int, id: Id)
    requires Possible(s, e, skew) && Over(s.sent, s.nodes[e.who], id)
    requires var n := s.nodes[e.who]; LookOk(n) && RequestsOk(s.sent, n.name, n.keyed.requests)
    ensures Over(s.sent, NodeAfter(s, e, skew), id)
    ensures id in s.nodes[e.who].out.dead && e != Local(e.who, Retention(PruneOut(id))) ==> id in NodeAfter(s, e, skew).out.dead
  {
    if e.Local? {
      PreparedUnknown(s, e, skew);
      assert e.a.Post? ==> e.a.m in Prepared(e.a);
      OverApplies(s.sent, s.nodes[e.who], e.a, id);
    }
  }

  lemma {:induction false} OverRun(s: Net, es: seq<Event>, t: Net, skew: int, k: Node, id: Id)
    requires Truth(s) && Leads(s, es, t, skew) && k in s.nodes && Over(s.sent, s.nodes[k], id)
    ensures k in t.nodes && Over(t.sent, t.nodes[k], id)
    ensures id in s.nodes[k].out.dead && Local(k, Retention(PruneOut(id))) !in es ==> id in t.nodes[k].out.dead
    decreases |es|
  {
    if es != [] {
      TruthStep(s, es[0], skew);
      OverStep(s, es[0], skew, k, id);
      OverRun(After(s, es[0], skew), es[1..], t, skew, k, id);
    }
  }

  // Whatever happens afterwards, no acknowledgement, however late, and no keyed send
  // takes a message out of dead: it stays there until retention removes it.
  lemma DeadStaysDead(s: Net, es: seq<Event>, t: Net, skew: int, k: Node, id: Id)
    requires Reachable(s, skew) && Leads(s, es, t, skew) && k in s.nodes && id in s.nodes[k].out.dead
    ensures k in t.nodes && id !in t.nodes[k].out.new_ && id !in t.nodes[k].out.acked
    ensures id in t.nodes[k].out.dead || id in t.nodes[k].out.retired
    ensures Local(k, Retention(PruneOut(id))) !in es ==> id in t.nodes[k].out.dead
  {
    var s0, fs :| Initial(s0) && Leads(s0, fs, s, skew);
    TruthInitial(s0);
    RunLate(s0, fs, s, skew);
    TruthReached(s, skew);
    Facts(s, k);
    DeadIsOver(s.sent, s.nodes[k], id);
    OverRun(s, es, t, skew, k, id);
  }

  // ------------------------------------------------------------- keyed sends

  // In every run: one key is one Id, every success names it, and the message was
  // queued under it.
  lemma KeyIsOneId(t: Net, skew: int, k: Node)
    requires Reachable(t, skew) && k in t.nodes
    ensures AnswersOk(t.nodes[k]) && OneKeyPerId(t.nodes[k]) && RecordsOk(t.nodes[k])
    ensures forall a, b :: a in t.nodes[k].keyed.answers && b in t.nodes[k].keyed.answers && a.Sent? && b.Sent? ==>
      (a.key == b.key <==> a.id == b.id)
  {
    TruthReached(t, skew);
    assert SenderOk(t, k);
  }

  // A request with other arguments or another body under a used key is refused,
  // and changes nothing but the reply.
  lemma OtherContentRefused(n: NodeState, key: string, args: SendArgs)
    requires RecordsOk(n) && key in n.keyed.requests && Sound(args) && n.keyed.rpc == RIdle
    ensures Enabled(n, KeyedAction(Reject(key, args))) <==> args != n.keyed.requests[key].args
    ensures Enabled(n, KeyedAction(Resume(key, args))) <==> args == n.keyed.requests[key].args
    ensures args != n.keyed.requests[key].args ==>
      Apply(n, KeyedAction(Reject(key, args))) == n.(keyed := n.keyed.(answers := n.keyed.answers + [Conflict(key)]))
  {
    RetryIsSameCall(n, key, args);
  }

  // A keyed send queues its message only when it is nowhere in the outbox, was
  // never queued or has been removed by retention since, and had not expired at a
  // clock reading of this very attempt.
  lemma QueuesOnlyWhenMissing(t: Net, skew: int, k: Node)
    requires Reachable(t, skew) && k in t.nodes && CanKeyed(t.nodes[k], Link)
    ensures var n := t.nodes[k]; var m := Current(n);
      && InNone(n.out, m.id) && (m.id in n.out.enqueued ==> m.id in n.out.retired)
      && n.keyed.rpc.now < m.expires
      && KeyedSend(n, Link).out == Enqueue(n, m).out
  {
    TruthReached(t, skew);
    assert Accounted(t.nodes[k].out) && LookOk(t.nodes[k]) by { assert SenderOk(t, k); }
    LinkWhenMissing(t.nodes[k]);
  }

  lemma LinkWhenMissing(n: NodeState)
    requires Accounted(n.out) && LookOk(n) && CanKeyed(n, Link)
    ensures var m := Current(n);
      && InNone(n.out, m.id) && (m.id in n.out.enqueued ==> m.id in n.out.retired)
      && n.keyed.rpc.now < m.expires
      && KeyedSend(n, Link).out == Enqueue(n, m).out
  {
    assert Places(n.out, Current(n).id) == One(Current(n).id in n.out.enqueued);
  }
}
