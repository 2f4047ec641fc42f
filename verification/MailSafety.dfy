/**
  The receiving side of the mail core: in every run a message is installed at most
  once, and only at its addressee.
*/
module MailSafety {
  import opened MailModel

  // ------------------------------------------------------------ bookkeeping

  // m is what the network knows under its Id.
  ghost predicate Known(sent: map<Id, Message>, m: Message) {
    m.id in sent && sent[m.id] == m
  }

  ghost predicate FileOk(sent: map<Id, Message>, f: File) {
    match f
    case Mail(m) => Known(sent, m)
    case Ack(ref, _) => ref in sent
    case Bounce(ref, _) => ref in sent
  }

  ghost predicate FilesOk(sent: map<Id, Message>, fs: set<File>) {
    forall f :: f in fs ==> FileOk(sent, f)
  }

  ghost predicate BoxOk(sent: map<Id, Message>, k: Node, box: map<Id, Message>) {
    forall id :: id in box ==> box[id].id == id && box[id].src == k && Known(sent, box[id])
  }

  ghost predicate OutOk(sent: map<Id, Message>, k: Node, out: Outbox) {
    BoxOk(sent, k, out.new_) && BoxOk(sent, k, out.acked) && BoxOk(sent, k, out.dead)
  }

  ghost predicate RequestsOk(sent: map<Id, Message>, k: Node, requests: map<string, Request>) {
    forall key :: key in requests ==> Known(sent, requests[key].m) && requests[key].m.src == k
  }

  ghost predicate PcOk(sent: map<Id, Message>, k: Node, pc: Pc) {
    match pc
    case Dated(_, m, _) => Known(sent, m) && m.dst == k
    case Installed(_, m, _) => Known(sent, m) && m.dst == k
    case Logged(_, m) => Known(sent, m) && m.dst == k
    case Acked(_, m) => Known(sent, m) && m.dst == k
    case Expiring(m) => Known(sent, m) && m.src == k
    case Expired(m) => Known(sent, m) && m.src == k
    case Settling(ref, back) => ref in sent && (back == Idle || back == Tail)
    case Settled(ref, back) => back == Idle || back == Tail
    case _ => true
  }

  predicate ReturnsOk(pc: Pc) {
    pc.Settling? || pc.Settled? ==> pc.back == Idle || pc.back == Tail
  }

  ghost predicate NodeOk(sent: map<Id, Message>, k: Node, n: NodeState) {
    && n.name == k
    && FilesOk(sent, n.spool)
    && OutOk(sent, k, n.out)
    && RequestsOk(sent, k, n.keyed.requests)
    && PcOk(sent, k, n.pc)
  }

  // sent only ever grows.
  ghost predicate Extends(old_: map<Id, Message>, new_: map<Id, Message>) {
    forall id :: id in old_ ==> id in new_ && new_[id] == old_[id]
  }

  lemma NodeOkGrows(sent: map<Id, Message>, sent': map<Id, Message>, k: Node, n: NodeState)
    requires NodeOk(sent, k, n) && Extends(sent, sent')
    ensures NodeOk(sent', k, n)
  {
  }

  lemma DeliverOk(sent: map<Id, Message>, k: Node, n: NodeState, d: DeliverStep)
    requires NodeOk(sent, k, n) && CanDeliver(n, d)
    ensures NodeOk(sent, k, Deliver(n, d))
  {
  }

  lemma SettleOk(sent: map<Id, Message>, k: Node, n: NodeState, a: SettleStep)
    requires NodeOk(sent, k, n) && CanSettle(n, a)
    ensures NodeOk(sent, k, Settle(n, a))
  {
  }

  lemma KeyedOk(sent: map<Id, Message>, k: Node, n: NodeState, a: KeyedStep)
    requires NodeOk(sent, k, n) && CanKeyed(n, a)
    requires a.Bind? ==> Known(sent, a.m)
    ensures NodeOk(sent, k, KeyedSend(n, a))
  {
  }

  lemma ApplyOk(sent: map<Id, Message>, k: Node, n: NodeState, a: Action)
    requires NodeOk(sent, k, n) && Enabled(n, a)
    requires forall m :: m in Prepared(a) ==> Known(sent, m)
    ensures NodeOk(sent, k, Apply(n, a))
  {
    match a
    case Delivery(d) => DeliverOk(sent, k, n, d);
    case Settlement(s) => SettleOk(sent, k, n, s);
    case KeyedAction(q) => KeyedOk(sent, k, n, q);
    case _ =>
  }

  // ------------------------------------------------------- the receiving side

  // The furthest a recipient's clock may lag for the retention arithmetic to work.
  const MAX_SKEW := LOG_KEEP - TTL_CAP + 1

  // The lock holder will still look at id's spool copy before it prunes anything.
  predicate Owed(pc: Pc, id: Id) {
    match pc
    case Idle => true
    case Sweep(todo) => id in todo
    case Dated(todo, m, _) => id in todo || id == m.id
    case Installed(todo, m, _) => id in todo || id == m.id
    case Logged(todo, _) => id in todo
    case Acked(todo, _) => id in todo
    case Settling(_, back) => back == Idle
    case Settled(_, back) => back == Idle
    case _ => false
  }

  // Why id, once installed, cannot be installed again.
  ghost predicate Covered(sent: map<Id, Message>, n: NodeState, id: Id) {
    id in sent &&
    (|| sent[id].expires <= n.clock
     || InLog(n.box.log, id)
     || (InInbox(n.box, id) && Mail(sent[id]) in n.spool && Owed(n.pc, id)))
  }

  ghost predicate LogOk(sent: map<Id, Message>, skew: int, k: Node, b: Inbox) {
    forall line :: line in b.log ==>
      line.id in sent && sent[line.id].dst == k && line.id in b.installs && line.at >= sent[line.id].sentAt - skew
  }

  predicate NoRepeat(ids: seq<Id>) {
    forall i, j :: 0 <= i < j < |ids| ==> ids[i] != ids[j]
  }

  // What the lock holder knows at each point of the delivery loop.
  ghost predicate StageOk(sent: map<Id, Message>, skew: int, n: NodeState) {
    match n.pc
    case Dated(_, m, now) =>
      && m.sentAt - skew <= now <= n.clock && Mail(m) in n.spool
      && (m.id in n.box.installs ==> m.expires <= now || InLog(n.box.log, m.id) || InInbox(n.box, m.id))
    case Installed(_, m, now) => m.sentAt - skew <= now <= n.clock && m.id in n.box.installs
    case Logged(_, m) => InLog(n.box.log, m.id)
    case Acked(_, m) => InLog(n.box.log, m.id)
    case Expiring(m) => m.expires <= n.clock
    case Expired(m) => m.expires <= n.clock
    case _ => true
  }

  ghost predicate SentOk(sent: map<Id, Message>) {
    forall id :: id in sent ==> sent[id].id == id && sent[id].expires <= sent[id].sentAt + TTL_CAP
  }

  ghost predicate ClockOk(sent: map<Id, Message>, skew: int, k: Node, clock: int) {
    forall id :: id in sent && sent[id].dst == k ==> clock >= sent[id].sentAt - skew
  }

  ghost predicate Receiver(sent: map<Id, Message>, skew: int, k: Node, n: NodeState) {
    && NodeOk(sent, k, n)
    && ClockOk(sent, skew, k, n.clock)
    && LogOk(sent, skew, k, n.box)
    && NoRepeat(n.box.installs)
    && (forall id :: InInbox(n.box, id) ==> id in n.box.installs)
    && (forall id :: id in n.box.installs ==> Covered(sent, n, id) && sent[id].dst == k)
    && StageOk(sent, skew, n)
  }

  // An acknowledgement exists only for an installed, recorded message.
  ghost predicate AckOk(sent: map<Id, Message>, n: NodeState, ref: Id) {
    ref in sent && ref in n.box.installs && (InLog(n.box.log, ref) || sent[ref].expires <= n.clock)
  }

  ghost predicate AcksHere(sent: map<Id, Message>, ever: set<File>, k: Node, n: NodeState) {
    forall f :: f in ever && f.Ack? && f.ref in sent && sent[f.ref].dst == k ==> AckOk(sent, n, f.ref)
  }

  ghost predicate SettlesAck(ever: set<File>, n: NodeState) {
    n.pc.Settling? ==> Ack(n.pc.ref, n.name) in ever
  }

  lemma LogGrows(log: seq<LogLine>, line: LogLine)
    ensures forall id :: InLog(log + [line], id) <==> InLog(log, id) || id == line.id
  {
    forall id
      ensures InLog(log + [line], id) <==> InLog(log, id) || id == line.id
    {
      if InLog(log, id) {
        var l :| l in log && l.id == id;
        assert l in log + [line];
      }
      assert line in log + [line];
    }
  }

  lemma ReceiverDelivers(sent: map<Id, Message>, skew: int, k: Node, n: NodeState, d: DeliverStep)
    requires Receiver(sent, skew, k, n) && SentOk(sent) && CanDeliver(n, d)
    ensures Receiver(sent, skew, k, Deliver(n, d))
  {
    DeliverOk(sent, k, n, d);
    match d
    case Repair(at) => LogGrows(n.box.log, LogLine(at, n.pc.m.id));
    case Record(at) => LogGrows(n.box.log, LogLine(at, n.pc.m.id));
    case Begin =>
      forall id | id in n.box.installs && Mail(sent[id]) in n.spool
        ensures id in OwnMail(n)
      {
        assert Mail(sent[id]).m.id == id;
      }
    case ReadClock(m) =>
    case DropExpired =>
    case FindLogged =>
    case Install =>
    case QueueAck =>
    case Consume =>
    case EndSweep =>
  }

  lemma ReceiverSettles(sent: map<Id, Message>, ever: set<File>, skew: int, k: Node, n: NodeState, a: SettleStep)
    requires Receiver(sent, skew, k, n) && SentOk(sent) && CanSettle(n, a)
    requires n.spool <= ever && AcksHere(sent, ever, k, n) && SettlesAck(ever, n)
    ensures Receiver(sent, skew, k, Settle(n, a))
  {
    SettleOk(sent, k, n, a);
  }

  // Pruning drops exactly the lines older than the cut.
  lemma {:induction false} KeptExact(log: seq<LogLine>, before: int, line: LogLine)
    ensures line in Kept(log, before) <==> line in log && line.at >= before
  {
    if log != [] {
      KeptExact(log[1..], before, line);
      assert log == [log[0]] + log[1..];
    }
  }

  lemma ReceiverPrunesLog(sent: map<Id, Message>, skew: int, k: Node, n: NodeState, now: int)
    requires Receiver(sent, skew, k, n) && SentOk(sent) && skew <= MAX_SKEW && CanRetain(n, PruneLog(now))
    ensures Receiver(sent, skew, k, Retain(n, PruneLog(now)))
  {
    var n' := Retain(n, PruneLog(now));
    forall line
      ensures line in n'.box.log <==> line in n.box.log && line.at >= now - LOG_KEEP
    {
      KeptExact(n.box.log, now - LOG_KEEP, line);
    }
  }

  lemma ReceiverRetains(sent: map<Id, Message>, skew: int, k: Node, n: NodeState, a: RetainStep)
    requires Receiver(sent, skew, k, n) && SentOk(sent) && skew <= MAX_SKEW && CanRetain(n, a)
    ensures Receiver(sent, skew, k, Retain(n, a))
  {
    match a
    case PruneLog(now) => ReceiverPrunesLog(sent, skew, k, n, now);
    case _ =>
  }

  lemma ReceiverApplies(sent: map<Id, Message>, ever: set<File>, skew: int, k: Node, n: NodeState, a: Action)
    requires Receiver(sent, skew, k, n) && SentOk(sent) && skew <= MAX_SKEW && Enabled(n, a)
    requires n.spool <= ever && AcksHere(sent, ever, k, n) && SettlesAck(ever, n)
    requires forall m :: m in Prepared(a) ==> Known(sent, m)
    ensures Receiver(sent, skew, k, Apply(n, a))
  {
    ApplyOk(sent, k, n, a);
    match a
    case Delivery(d) => ReceiverDelivers(sent, skew, k, n, d);
    case Settlement(s) => ReceiverSettles(sent, ever, skew, k, n, s);
    case Retention(r) => ReceiverRetains(sent, skew, k, n, r);
    case KeyedAction(q) =>
      assert KeyedSend(n, q).box == n.box && KeyedSend(n, q).pc == n.pc && n.spool <= KeyedSend(n, q).spool;
    case _ =>
  }

  // Once acknowledged, a message stays recorded until it has expired.
  lemma AckStable(sent: map<Id, Message>, skew: int, k: Node, n: NodeState, a: Action, ref: Id)
    requires Receiver(sent, skew, k, n) && SentOk(sent) && skew <= MAX_SKEW && Enabled(n, a)
    requires AckOk(sent, n, ref)
    ensures AckOk(sent, Apply(n, a), ref)
  {
    match a
    case Delivery(d) => AckStableDelivery(sent, n, d, ref);
    case Retention(r) =>
      if r.PruneLog? && InLog(n.box.log, ref) {
        var line :| line in n.box.log && line.id == ref;
        KeptExact(n.box.log, r.now - LOG_KEEP, line);
      }
    case KeyedAction(q) => assert KeyedSend(n, q).box == n.box && KeyedSend(n, q).clock == n.clock;
    case _ =>
  }

  lemma AckStableDelivery(sent: map<Id, Message>, n: NodeState, d: DeliverStep, ref: Id)
    requires CanDeliver(n, d) && AckOk(sent, n, ref)
    ensures AckOk(sent, Deliver(n, d), ref)
  {
    match d
    case Repair(at) => LogGrows(n.box.log, LogLine(at, n.pc.m.id));
    case Record(at) => LogGrows(n.box.log, LogLine(at, n.pc.m.id));
    case _ =>
  }

  // A node's own new acknowledgement is of a recorded message.
  lemma NewAckOk(sent: map<Id, Message>, skew: int, k: Node, n: NodeState, a: Action, f: File)
    requires Receiver(sent, skew, k, n) && Enabled(n, a)
    requires f in Apply(n, a).spool && f !in n.spool && f.Ack?
    ensures AckOk(sent, n, f.ref)
  {
    match a
    case Delivery(d) =>
      assert d.QueueAck? && f.ref == n.pc.m.id;
      var line :| line in n.box.log && line.id == f.ref;
    case Settlement(s) =>
    case KeyedAction(q) =>
    case _ =>
  }

  lemma AcksKept(sent: map<Id, Message>, ever: set<File>, skew: int, k: Node, n: NodeState, a: Action)
    requires Receiver(sent, skew, k, n) && SentOk(sent) && skew <= MAX_SKEW && Enabled(n, a)
    requires n.spool <= ever && AcksHere(sent, ever, k, n) && SettlesAck(ever, n)
    ensures AcksHere(sent, ever + Apply(n, a).spool, k, Apply(n, a))
  {
    forall f | f in ever + Apply(n, a).spool && f.Ack? && f.ref in sent && sent[f.ref].dst == k
      ensures AckOk(sent, Apply(n, a), f.ref)
    {
      if f !in ever {
        NewAckOk(sent, skew, k, n, a, f);
      }
      AckStable(sent, skew, k, n, a, f.ref);
    }
  }

  lemma SettlesAckKept(ever: set<File>, n: NodeState, a: Action)
    requires Enabled(n, a) && n.spool <= ever && SettlesAck(ever, n) && ReturnsOk(n.pc)
    ensures SettlesAck(ever + Apply(n, a).spool, Apply(n, a))
  {
  }

  // ------------------------------------------------------------ the whole network

  ghost predicate DestOk(s: Net) {
    forall id :: id in s.sent ==> s.sent[id].src in s.nodes && s.sent[id].dst in s.nodes
  }

  ghost predicate PlaceOk(s: Net, skew: int, k: Node)
    requires k in s.nodes
  {
    AtPlace(s.sent, s.ever, skew, k, s.nodes[k])
  }

  ghost predicate AtPlace(sent: map<Id, Message>, ever: set<File>, skew: int, k: Node, n: NodeState) {
    && Receiver(sent, skew, k, n)
    && n.spool <= ever
    && AcksHere(sent, ever, k, n)
    && SettlesAck(ever, n)
  }

  ghost predicate Inv(s: Net, skew: int) {
    && SentOk(s.sent)
    && DestOk(s)
    && FilesOk(s.sent, s.ever)
    && forall k :: k in s.nodes ==> PlaceOk(s, skew, k)
  }

  lemma ReceiverGrows(sent: map<Id, Message>, sent': map<Id, Message>, skew: int, k: Node, n: NodeState)
    requires Receiver(sent, skew, k, n) && Extends(sent, sent') && ClockOk(sent', skew, k, n.clock)
    ensures Receiver(sent', skew, k, n)
  {
    NodeOkGrows(sent, sent', k, n);
  }

  lemma PlaceClock(s: Net, skew: int, k: Node)
    requires Inv(s, skew) && k in s.nodes
    ensures s.nodes[k].name == k && ClockOk(s.sent, skew, k, s.nodes[k].clock)
  {
    assert PlaceOk(s, skew, k);
  }

  // A preparing action prepares a message the network has not seen.
  lemma PreparedFresh(s: Net, e: Event, skew: int)
    requires Possible(s, e, skew) && e.Local?
    ensures NewSent(s.sent, e.a) == s.sent ||
            exists m :: Fresh(s, m, skew) && MaySend(s.nodes[e.who], m) && NewSent(s.sent, e.a) == s.sent[m.id := m]
  {
    match e.a
    case Post(m) => assert m in Prepared(e.a);
    case KeyedAction(q) => assert q.Bind? ==> q.m in Prepared(e.a);
    case _ =>
  }

  lemma SentAdds(s: Net, e: Event, skew: int)
    requires SentOk(s.sent) && DestOk(s) && Possible(s, e, skew) && s.nodes[e.who].name == e.who
    ensures Extends(s.sent, SentAfter(s, e)) && SentOk(SentAfter(s, e))
    ensures forall id :: id in SentAfter(s, e) ==> SentAfter(s, e)[id].src in s.nodes && SentAfter(s, e)[id].dst in s.nodes
  {
    if e.Local? {
      PreparedFresh(s, e, skew);
    }
  }

  lemma SentGrows(s: Net, e: Event, skew: int)
    requires Inv(s, skew) && Possible(s, e, skew)
    ensures Extends(s.sent, After(s, e, skew).sent)
    ensures SentOk(After(s, e, skew).sent) && DestOk(After(s, e, skew))
  {
    PlaceClock(s, skew, e.who);
    SentAdds(s, e, skew);
    assert After(s, e, skew).sent == SentAfter(s, e) && s.nodes.Keys <= After(s, e, skew).nodes.Keys;
  }

  lemma ClockGrows(s: Net, e: Event, skew: int, k: Node)
    requires Inv(s, skew) && Possible(s, e, skew) && k in s.nodes
    ensures ClockOk(After(s, e, skew).sent, skew, k, s.nodes[k].clock)
  {
    PlaceClock(s, skew, k);
    if e.Local? {
      PreparedFresh(s, e, skew);
    }
  }

  lemma ReceiverArrives(sent: map<Id, Message>, ever: set<File>, skew: int, k: Node, n: NodeState, f: File)
    requires AtPlace(sent, ever, skew, k, n) && FileOk(sent, f) && f in ever
    ensures AtPlace(sent, ever, skew, k, n.(spool := n.spool + {f}))
  {
  }

  lemma ReceiverLoses(sent: map<Id, Message>, ever: set<File>, skew: int, k: Node, n: NodeState, f: File)
    requires AtPlace(sent, ever, skew, k, n) && SentOk(sent) && f.Addressee() != k
    ensures AtPlace(sent, ever, skew, k, n.(spool := n.spool - {f}))
  {
  }

  lemma ReceiverAges(sent: map<Id, Message>, ever: set<File>, skew: int, k: Node, n: NodeState, t: int)
    requires AtPlace(sent, ever, skew, k, n) && n.clock <= t
    ensures AtPlace(sent, ever, skew, k, n.(clock := t))
  {
  }

  // The environment's events at node k.
  lemma ReceiverMoves(s: Net, e: Event, skew: int)
    requires Inv(s, skew) && Possible(s, e, skew) && !e.Local?
    ensures PlaceOk(After(s, e, skew), skew, e.who)
  {
    var k, n := e.who, s.nodes[e.who];
    assert PlaceOk(s, skew, k);
    var n' := NodeAfter(s, e, skew);
    assert AtPlace(s.sent, s.ever, skew, k, n') by {
      match e
      case Arrive(_, f) => ReceiverArrives(s.sent, s.ever, skew, k, n, f);
      case Vanish(_, f) => ReceiverLoses(s.sent, s.ever, skew, k, n, f);
      case Tick(_, t) => ReceiverAges(s.sent, s.ever, skew, k, n, t);
    }
    assert s.ever + n'.spool == s.ever;
  }

  // More messages prepared elsewhere.
  lemma PlaceGrows(sent: map<Id, Message>, sent': map<Id, Message>, ever: set<File>, skew: int, k: Node, n: NodeState)
    requires AtPlace(sent, ever, skew, k, n) && FilesOk(sent, ever)
    requires Extends(sent, sent') && ClockOk(sent', skew, k, n.clock)
    ensures AtPlace(sent', ever, skew, k, n)
  {
    ReceiverGrows(sent, sent', skew, k, n);
    forall f | f in ever && f.Ack? && f.ref in sent' && sent'[f.ref].dst == k
      ensures AckOk(sent', n, f.ref)
    {
      assert FileOk(sent, f);
    }
  }

  lemma PlaceApplies(sent: map<Id, Message>, ever: set<File>, skew: int, k: Node, n: NodeState, a: Action)
    requires AtPlace(sent, ever, skew, k, n) && SentOk(sent) && skew <= MAX_SKEW && Enabled(n, a)
    requires forall m :: m in Prepared(a) ==> Known(sent, m)
    ensures AtPlace(sent, ever + Apply(n, a).spool, skew, k, Apply(n, a))
  {
    ReceiverApplies(sent, ever, skew, k, n, a);
    AcksKept(sent, ever, skew, k, n, a);
    SettlesAckKept(ever, n, a);
  }

  // An action at node k, seen from node k.
  lemma ReceiverActs(s: Net, e: Event, skew: int)
    requires Inv(s, skew) && Possible(s, e, skew) && e.Local? && skew <= MAX_SKEW
    ensures PlaceOk(After(s, e, skew), skew, e.who)
  {
    SentGrows(s, e, skew);
    ClockGrows(s, e, skew, e.who);
    assert PlaceOk(s, skew, e.who);
    PlaceGrows(s.sent, SentAfter(s, e), s.ever, skew, e.who, s.nodes[e.who]);
    PlaceApplies(SentAfter(s, e), s.ever, skew, e.who, s.nodes[e.who], e.a);
  }

  // Only the recipient acknowledges a message.
  lemma NewAckIsLocal(sent: map<Id, Message>, k: Node, n: NodeState, a: Action, f: File)
    requires NodeOk(sent, k, n) && Enabled(n, a) && f in Apply(n, a).spool && f.Ack?
    ensures f in n.spool || (f.ref in sent && sent[f.ref].dst == k)
  {
  }

  // An event at another node, seen from node k.
  lemma ReceiverWatches(s: Net, e: Event, skew: int, k: Node)
    requires Inv(s, skew) && Possible(s, e, skew) && k in s.nodes && k != e.who
    ensures PlaceOk(After(s, e, skew), skew, k)
  {
    var t := After(s, e, skew);
    var n := s.nodes[k];
    SentGrows(s, e, skew);
    ClockGrows(s, e, skew, k);
    assert PlaceOk(s, skew, k) && PlaceOk(s, skew, e.who);
    ReceiverGrows(s.sent, t.sent, skew, k, n);
    forall f | f in t.ever && f.Ack? && f.ref in t.sent && t.sent[f.ref].dst == k
      ensures AckOk(t.sent, n, f.ref)
    {
      AckElsewhere(s, e, skew, k, f);
    }
  }

  lemma AckElsewhere(s: Net, e: Event, skew: int, k: Node, f: File)
    requires Inv(s, skew) && Possible(s, e, skew) && k in s.nodes && k != e.who && Extends(s.sent, After(s, e, skew).sent)
    requires var t := After(s, e, skew); f in t.ever && f.Ack? && f.ref in t.sent && t.sent[f.ref].dst == k
    ensures AckOk(After(s, e, skew).sent, s.nodes[k], f.ref)
  {
    assert PlaceOk(s, skew, k) && PlaceOk(s, skew, e.who);
    if f !in s.ever {
      NewAckIsLocal(s.sent, e.who, s.nodes[e.who], e.a, f);
    }
    assert FileOk(s.sent, f);
  }

  lemma FilesGrow(s: Net, e: Event, skew: int)
    requires Inv(s, skew) && Possible(s, e, skew)
    requires PlaceOk(After(s, e, skew), skew, e.who)
    ensures FilesOk(After(s, e, skew).sent, After(s, e, skew).ever)
  {
    SentGrows(s, e, skew);
    var t := After(s, e, skew);
    forall f | f in t.ever
      ensures FileOk(t.sent, f)
    {
      assert f in s.ever ==> FileOk(s.sent, f);
      assert FilesOk(t.sent, t.nodes[e.who].spool);
    }
  }

  lemma InvStep(s: Net, e: Event, skew: int)
    requires Inv(s, skew) && Possible(s, e, skew) && skew <= MAX_SKEW
    ensures Inv(After(s, e, skew), skew)
  {
    var t := After(s, e, skew);
    if e.Local? {
      ReceiverActs(s, e, skew);
    } else {
      ReceiverMoves(s, e, skew);
    }
    FilesGrow(s, e, skew);
    SentGrows(s, e, skew);
    forall k | k in t.nodes
      ensures PlaceOk(t, skew, k)
    {
      if k != e.who {
        ReceiverWatches(s, e, skew, k);
      }
    }
  }

  lemma {:induction false} InvRun(s: Net, es: seq<Event>, t: Net, skew: int)
    requires Inv(s, skew) && Leads(s, es, t, skew) && skew <= MAX_SKEW
    ensures Inv(t, skew)
    decreases |es|
  {
    if es != [] {
      InvStep(s, es[0], skew);
      InvRun(After(s, es[0], skew), es[1..], t, skew);
    }
  }

  lemma InvInitial(s: Net, skew: int)
    requires Initial(s)
    ensures Inv(s, skew)
  {
  }

  ghost predicate AtMostOnce(t: Net) {
    && (forall k :: k in t.nodes ==> NoRepeat(t.nodes[k].box.installs))
    && (forall k, id :: k in t.nodes && id in t.nodes[k].box.installs ==> id in t.sent && t.sent[id].dst == k)
  }

  lemma OnceFromInv(t: Net, skew: int)
    requires Inv(t, skew)
    ensures AtMostOnce(t)
  {
    forall k | k in t.nodes
      ensures NoRepeat(t.nodes[k].box.installs)
      ensures forall id :: id in t.nodes[k].box.installs ==> id in t.sent && t.sent[id].dst == k
    {
      assert PlaceOk(t, skew, k);
    }
  }

  // Every message is installed at most once, and only where it is addressed.
  lemma InstalledAtMostOnce(t: Net, skew: int)
    requires Reachable(t, skew) && skew <= MAX_SKEW
    ensures AtMostOnce(t)
  {
    var s, es :| Initial(s) && Leads(s, es, t, skew);
    InvInitial(s, skew);
    InvRun(s, es, t, skew);
    OnceFromInv(t, skew);
  }
}
