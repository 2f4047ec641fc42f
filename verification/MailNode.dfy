/**
  The routines of bin/khala on one node, file operation by file operation. Each
  keeps a ghost `path`: the node's state after every file operation. Every path is
  a run of the transition system of MailModel, so its theorems speak about these
  routines stopped after any prefix of their operations.
*/
module MailNode {
  import opened MailModel
  import opened SendRecord
  import opened Wrappers

  // A state of the node, and the action that led to it; none where the clock moved.
  datatype Moment = Moment(n: NodeState, via: Option<Action>)

  predicate Follows(n: NodeState, to: Moment) {
    match to.via
    case None => n.clock <= to.n.clock && to.n == n.(clock := to.n.clock)
    case Some(a) => Enabled(n, a) && Apply(n, a) == to.n
  }

  ghost predicate Run(path: seq<Moment>) {
    path != [] && forall i :: 0 < i < |path| ==> Follows(path[i - 1].n, path[i])
  }

  lemma RunExtends(path: seq<Moment>, to: Moment)
    requires Run(path) && Follows(path[|path| - 1].n, to)
    ensures Run(path + [to])
  {
    var more := path + [to];
    forall i | 0 < i < |more|
      ensures Follows(more[i - 1].n, more[i])
    {
      assert more[i - 1] == path[i - 1];
      assert i < |path| ==> Follows(path[i - 1].n, path[i]);
    }
  }

  // b is a after the delivery routine has handled m, having read the clock as now.
  ghost predicate Handled(a: NodeState, b: NodeState, m: Message, now: int) {
    && b.name == a.name && b.out == a.out && b.keyed == a.keyed && a.clock <= now <= b.clock
    && if m.expires <= now then b.box == a.box && b.spool == a.spool - {Mail(m)}
       else
         && InLog(b.box.log, m.id) && a.box.log <= b.box.log && b.box.cur == a.box.cur
         && (forall id :: InLog(b.box.log, id) ==> InLog(a.box.log, id) || id == m.id)
         && b.spool == a.spool + {Ack(m.id, m.src)} - {Mail(m)}
         && (if InLog(a.box.log, m.id) || InInbox(a.box, m.id)
             then b.box.new_ == a.box.new_ && b.box.installs == a.box.installs
             else b.box.new_ == a.box.new_ + {m.id} && b.box.installs == a.box.installs + [m.id])
  }

  // b is a after the delivery loop has handled every file but those of todo.
  ghost predicate Swept(a: NodeState, b: NodeState, todo: set<Id>) {
    && b.name == a.name && b.out == a.out && b.keyed == a.keyed && a.clock <= b.clock
    && b.box.cur == a.box.cur && a.box.installs <= b.box.installs && a.box.log <= b.box.log
    && (forall f :: f in b.spool && f !in a.spool ==> f.Ack?)
    && (forall f :: f in a.spool && !(f.Mail? && f.m.dst == a.name) ==> f in b.spool)
    && (forall m :: Mail(m) in a.spool && m.dst == a.name ==>
         if m.id in todo then Mail(m) in b.spool
         else Mail(m) !in b.spool && (m.expires <= b.clock || (InLog(b.box.log, m.id) && Ack(m.id, m.src) in b.spool)))
  }

  // What came into the log and the inbox between a and b: a letter that was there
  // already is only recorded, any other is installed, and from the own spool only.
  ghost predicate Took(a: NodeState, b: NodeState) {
    && a.box.installs <= b.box.installs && a.box.new_ <= b.box.new_ && a.box.cur == b.box.cur
    && (forall id :: id in b.box.installs[|a.box.installs|..] ==> id in b.box.new_ && id in OwnMail(a) && !InLog(a.box.log, id) && !InInbox(a.box, id))
    && (forall id :: id in b.box.new_ ==> id in a.box.new_ || id in b.box.installs[|a.box.installs|..])
    && (forall id :: InLog(b.box.log, id) && !InLog(a.box.log, id) ==> InInbox(a.box, id) || id in b.box.installs[|a.box.installs|..])
  }

  // A directory holds one file of a name.
  predicate OneFilePerName(spool: set<File>) {
    forall f, g :: f in spool && g in spool && f.Mail? && g.Mail? && f.m.id == g.m.id ==> f == g
  }

  lemma SweptNothing(a: NodeState, pc: Pc)
    ensures Swept(a, a.(pc := pc), OwnMail(a))
  {
    forall m | Mail(m) in a.spool && m.dst == a.name
      ensures m.id in OwnMail(a)
    {
      assert Mail(m).m.id == m.id;
    }
  }

  lemma SweptLeaves(a: NodeState, b: NodeState, todo: set<Id>, id: Id)
    requires Swept(a, b, todo) && id in todo && todo <= OwnMail(a)
    ensures exists m :: Mail(m) in b.spool && m.dst == b.name && m.id == id
    ensures forall m :: Mail(m) in b.spool ==> Mail(m) in a.spool
  {
    var f :| f in a.spool && f.Mail? && f.m.dst == a.name && f.m.id == id;
    assert Mail(f.m) in a.spool;
  }

  lemma SweptMore(a: NodeState, b: NodeState, c: NodeState, todo: set<Id>, m: Message, now: int)
    requires Swept(a, b, todo) && Handled(b, c, m, now) && OneFilePerName(a.spool)
    requires Mail(m) in b.spool && Mail(m) in a.spool && m.dst == a.name && m.id in todo
    ensures Swept(a, c, todo - {m.id})
  {
    assert forall id :: InLog(b.box.log, id) ==> InLog(c.box.log, id);
  }

  lemma TookMore(a: NodeState, b: NodeState, c: NodeState, m: Message, now: int)
    requires Took(a, b) && Handled(b, c, m, now) && m.id in OwnMail(a) && a.box.log <= b.box.log
    ensures Took(a, c)
  {
    var n, was, more := |a.box.installs|, b.box.installs, c.box.installs;
    if more != was {
      assert more[n..] == was[n..] + [m.id];
      assert forall id :: InLog(a.box.log, id) ==> InLog(b.box.log, id);
    }
  }

  function Picked(box: map<Id, Message>, ids: set<Id>): map<Id, Message> {
    map id | id in ids && id in box :: box[id]
  }

  // The outbox after acknowledgements of refs have been settled.
  function SettledOut(o: Outbox, refs: set<Id>): Outbox {
    o.(new_ := o.new_ - refs, acked := o.acked + Picked(o.new_, refs))
  }

  // The outbox after the messages ids have been declared undeliverable.
  function ExpiredOut(o: Outbox, ids: set<Id>): Outbox {
    o.(new_ := o.new_ - ids, dead := o.dead + Picked(o.new_, ids))
  }

  // b is a after the settlement loop has consumed the acknowledgements of refs.
  ghost predicate AcksSettled(a: NodeState, b: NodeState, refs: set<Id>) {
    && b == a.(out := SettledOut(a.out, refs), spool := b.spool)
    && b.spool <= a.spool
    && (forall f :: f in a.spool && f !in b.spool ==>
         (f.Ack? && f.to == a.name && f.ref in refs) || (f.Mail? && exists ref :: ref in refs && f.m in MessageOf(b.out, ref)))
    && (forall ref :: ref in refs ==> Ack(ref, a.name) !in b.spool)
    && (forall ref, m :: ref in refs && m in MessageOf(b.out, ref) ==> Mail(m) !in b.spool)
  }

  // The acknowledged or dead original of an Id.
  function MessageOf(o: Outbox, id: Id): set<Message> {
    if id in o.acked then {o.acked[id]} else if id in o.dead then {o.dead[id]} else {}
  }

  // The state after the three file operations of one acknowledgement.
  function AckSettled(a: NodeState, ref: Id): NodeState {
    var out := SettledOut(a.out, {ref});
    a.(out := out, spool := a.spool - (set m | m in MessageOf(out, ref) :: Mail(m)) - {Ack(ref, a.name)})
  }

  lemma AckSettledSettles(a: NodeState, ref: Id)
    ensures AcksSettled(a, AckSettled(a, ref), {ref})
  {
    var b := AckSettled(a, ref);
    forall f | f in a.spool && f !in b.spool && f != Ack(ref, a.name)
      ensures f.Mail? && f.m in MessageOf(b.out, ref)
    {
      var m :| m in MessageOf(b.out, ref) && f == Mail(m);
    }
  }

  lemma SettledOutMore(o: Outbox, refs: set<Id>, ref: Id)
    ensures SettledOut(SettledOut(o, refs), {ref}) == SettledOut(o, refs + {ref})
  {
    assert o.new_ - refs - {ref} == o.new_ - (refs + {ref});
    PickedMore(o.acked, o.new_, refs, ref);
  }

  lemma PickedMore(to: map<Id, Message>, box: map<Id, Message>, ids: set<Id>, id: Id)
    ensures to + Picked(box, ids) + Picked(box - ids, {id}) == to + Picked(box, ids + {id})
  {
    assert Picked(box, ids) + Picked(box - ids, {id}) == Picked(box, ids + {id});
  }

  lemma AcksSettledMore(a: NodeState, b: NodeState, c: NodeState, refs: set<Id>, ref: Id)
    requires AcksSettled(a, b, refs) && AcksSettled(b, c, {ref}) && ref !in refs
    ensures AcksSettled(a, c, refs + {ref})
  {
    SettledOutMore(a.out, refs, ref);
    assert forall id :: id in refs ==> MessageOf(c.out, id) == MessageOf(b.out, id);
    forall f | f in a.spool && f !in c.spool
      ensures (f.Ack? && f.to == a.name && f.ref in refs + {ref}) ||
              (f.Mail? && exists r :: r in refs + {ref} && f.m in MessageOf(c.out, r))
    {
      if f !in b.spool && f.Mail? {
        var r :| r in refs && f.m in MessageOf(b.out, r);
        assert f.m in MessageOf(c.out, r);
      } else if f in b.spool && f.Mail? {
        assert f.m in MessageOf(c.out, ref);
      }
    }
  }

  // b is a after the expiry loop has handled ids.
  ghost predicate OutExpired(a: NodeState, b: NodeState, ids: set<Id>) {
    && b == a.(out := ExpiredOut(a.out, ids), spool := b.spool)
    && (forall id :: id in ids ==> Bounce(id, a.name) in b.spool && (id in a.out.new_ ==> Mail(a.out.new_[id]) !in b.spool))
    && (forall f :: f in b.spool && f !in a.spool ==> f.Bounce? && f.ref in ids)
    && (forall f :: f in a.spool && f !in b.spool ==> f.Mail? && f.m.id in ids)
  }

  lemma OutExpiredMore(a: NodeState, b: NodeState, c: NodeState, ids: set<Id>, id: Id)
    requires OutExpired(a, b, ids) && OutExpired(b, c, {id}) && id !in ids
    ensures OutExpired(a, c, ids + {id})
  {
    ExpiredOutMore(a.out, ids, id);
  }

  lemma ExpiredOutMore(o: Outbox, ids: set<Id>, id: Id)
    ensures ExpiredOut(ExpiredOut(o, ids), {id}) == ExpiredOut(o, ids + {id})
  {
    assert o.new_ - ids - {id} == o.new_ - (ids + {id});
    PickedMore(o.dead, o.new_, ids, id);
  }

  class Khala {
    const name: Node
    var clock: int
    var out: Outbox          // outbox/new, outbox/acked, outbox/dead
    var spool: set<File>     // spool/for/*
    var box: Inbox           // inbox/*/new, inbox/*/cur, log/delivered
    var keyed: Keyed         // requests/send/*, and the position of a keyed send
    ghost var pc: Pc
    ghost var path: seq<Moment>

    ghost function Abs(): NodeState
      reads this
    {
      NodeState(name, clock, out, spool, box, pc, keyed)
    }

    ghost predicate Valid()
      reads this
    {
      Run(path) && path[|path| - 1].n == Abs()
    }

    constructor (name: Node, clock: int)
      ensures Valid() && path == [Moment(NewNode(name, clock), None)]
    {
      this.name := name;
      this.clock := clock;
      out := Outbox(map[], map[], map[], {}, {});
      spool := {};
      box := Inbox({}, {}, [], []);
      keyed := Keyed(map[], RIdle, []);
      pc := Idle;
      new;
      path := [Moment(Abs(), None)];
    }

    // Records that the state the fields now hold is one action after the last one.
    ghost method Did(a: Action)
      requires Run(path) && Enabled(path[|path| - 1].n, a) && Apply(path[|path| - 1].n, a) == Abs()
      modifies this`path
      ensures Valid() && path == old(path) + [Moment(Abs(), Some(a))]
    {
      RunExtends(path, Moment(Abs(), Some(a)));
      path := path + [Moment(Abs(), Some(a))];
    }

    ghost method Delivered(d: DeliverStep)
      requires Run(path) && CanDeliver(path[|path| - 1].n, d) && Deliver(path[|path| - 1].n, d) == Abs()
      modifies this`path
      ensures Valid() && path == old(path) + [Moment(Abs(), Some(Delivery(d)))]
    {
      Did(Delivery(d));
    }

    // date +%s
    method Date() returns (now: int)
      requires Valid()
      modifies this`clock, this`path
      ensures Valid() && old(path) <= path
      ensures old(clock) <= now == clock
    {
      now :| now >= clock;
      clock := now;
      RunExtends(path, Moment(Abs(), None));
      path := path + [Moment(Abs(), None)];
    }

    method DeliveredBefore(id: Id) returns (found: bool)
      ensures found <==> InLog(box.log, id)
    {
      var i := 0;
      while i < |box.log|
        invariant 0 <= i <= |box.log|
        invariant forall j :: 0 <= j < i ==> box.log[j].id != id
      {
        if box.log[i].id == id {
          return true;
        }
        i := i + 1;
      }
      found := false;
    }

    // Appends one line, from whichever routine state the caller is in.
    method RecordDelivered(m: Message, ghost todo: set<Id>, ghost read: int)
      requires Valid() && !InLog(box.log, m.id) && read <= clock
      requires pc == Installed(todo, m, read) ||
               (pc == Dated(todo, m, read) && read < m.expires && InInbox(box, m.id))
      modifies this`clock, this`box, this`pc, this`path
      ensures Valid() && old(path) <= path && old(clock) <= clock
      ensures pc == Logged(todo, m) && box == old(box).(log := old(box.log) + [LogLine(clock, m.id)])
    {
      var known := DeliveredBefore(m.id);
      if !known {
        var now := Date();
        ghost var repair := pc.Dated?;
        box := box.(log := box.log + [LogLine(now, m.id)]);
        pc := Logged(todo, m);
        Delivered(if repair then Repair(now) else Record(now));
      }
    }

    // Makes sure the message is in the inbox or was, and that the log says so.
    method DeliverOnce(m: Message, ghost todo: set<Id>, now: int)
      requires Valid() && pc == Dated(todo, m, now) && now < m.expires && now <= clock
      modifies this`clock, this`box, this`pc, this`path
      ensures Valid() && old(path) <= path && old(clock) <= clock && pc == Logged(todo, m)
      ensures InLog(box.log, m.id) && old(box.log) <= box.log && box.cur == old(box.cur)
      ensures forall id :: InLog(box.log, id) ==> InLog(old(box.log), id) || id == m.id
      ensures if InLog(old(box.log), m.id) || InInbox(old(box), m.id)
              then box.new_ == old(box.new_) && box.installs == old(box.installs)
              else box.new_ == old(box.new_) + {m.id} && box.installs == old(box.installs) + [m.id]
    {
      var known := DeliveredBefore(m.id);
      if known {
        pc := Logged(todo, m);
        Delivered(FindLogged);
        return;
      }
      if m.id !in box.new_ && m.id !in box.cur {
        box := box.(new_ := box.new_ + {m.id}, installs := box.installs + [m.id]);
        pc := Installed(todo, m, now);
        Delivered(Install);
      }
      RecordDelivered(m, todo, now);
      assert LogLine(clock, m.id) in box.log;
    }

    method QueueAckAndConsume(m: Message, ghost todo: set<Id>)
      requires Valid() && pc == Logged(todo, m)
      modifies this`spool, this`pc, this`path
      ensures Valid() && old(path) <= path && pc == Sweep(todo)
      ensures spool == old(spool) + {Ack(m.id, m.src)} - {Mail(m)}
    {
      spool := spool + {Ack(m.id, m.src)};
      pc := Acked(todo, m);
      Delivered(QueueAck);
      spool := spool - {Mail(m)};
      pc := Sweep(todo);
      Delivered(Consume);
    }

    // One spool file of the delivery loop.
    method DeliverRegularMessage(m: Message, ghost todo: set<Id>) returns (now: int)
      requires Valid() && pc == Sweep(todo) && m.id in todo && m.dst == name && Mail(m) in spool
      modifies this`clock, this`box, this`spool, this`pc, this`path
      ensures Valid() && old(path) <= path && pc == Sweep(todo - {m.id})
      ensures Handled(old(Abs()), Abs(), m, now)
    {
      now := Date();
      pc := Dated(todo - {m.id}, m, now);
      Delivered(ReadClock(m));
      if m.expires <= now {
        DropExpiredCopy(m, todo - {m.id}, now);
        return;
      }
      DeliverOnce(m, todo - {m.id}, now);
      QueueAckAndConsume(m, todo - {m.id});
    }

    method DropExpiredCopy(m: Message, ghost todo: set<Id>, now: int)
      requires Valid() && pc == Dated(todo, m, now) && m.expires <= now
      modifies this`spool, this`pc, this`path
      ensures Valid() && old(path) <= path && pc == Sweep(todo) && spool == old(spool) - {Mail(m)}
    {
      spool := spool - {Mail(m)};
      pc := Sweep(todo);
      Delivered(DropExpired);
    }

    // One iteration of the delivery loop.
    method DeliverNext(id: Id, ghost start: NodeState, ghost todo: set<Id>)
      requires Valid() && pc == Sweep(todo) && id in todo && todo <= OwnMail(start)
      requires OneFilePerName(start.spool) && Swept(start, Abs(), todo) && Took(start, Abs())
      modifies this`clock, this`box, this`spool, this`pc, this`path
      ensures Valid() && old(path) <= path && pc == Sweep(todo - {id})
      ensures Swept(start, Abs(), todo - {id}) && Took(start, Abs())
    {
      SweptLeaves(start, Abs(), todo, id);
      var m :| Mail(m) in spool && m.dst == name && m.id == id;
      ghost var before := Abs();
      var now := DeliverRegularMessage(m, todo);
      SweptMore(start, before, Abs(), todo, m, now);
      TookMore(start, before, Abs(), m, now);
    }

    // The loop over the node's own spool directory.
    method DeliverMessages()
      requires Valid() && pc == Idle && OneFilePerName(spool)
      modifies this`clock, this`box, this`spool, this`pc, this`path
      ensures Valid() && old(path) <= path && pc == Tail
      ensures Swept(old(Abs()), Abs(), {}) && Took(old(Abs()), Abs())
    {
      ghost var start := Abs();
      var todo := set f | f in spool && f.Mail? && f.m.dst == name :: f.m.id;
      pc := Sweep(todo);
      SweptNothing(start, pc);
      Delivered(Begin);
      while todo != {}
        invariant Valid() && old(path) <= path && pc == Sweep(todo)
        invariant Swept(start, Abs(), todo) && Took(start, Abs()) && todo <= OwnMail(start)
      {
        var id :| id in todo;
        DeliverNext(id, start, todo);
        todo := todo - {id};
      }
      pc := Tail;
      Delivered(EndSweep);
    }

    ghost method Settles(a: SettleStep)
      requires Run(path) && CanSettle(path[|path| - 1].n, a) && Settle(path[|path| - 1].n, a) == Abs()
      modifies this`path
      ensures Valid() && path == old(path) + [Moment(Abs(), Some(Settlement(a)))]
    {
      Did(Settlement(a));
    }

    // One acknowledgement of the settlement loop.
    method SettleAck(ref: Id)
      requires Valid() && (pc == Idle || pc == Tail) && Ack(ref, name) in spool
      modifies this`out, this`spool, this`pc, this`path
      ensures Valid() && old(path) <= path
      ensures Abs() == AckSettled(old(Abs()), ref)
    {
      ghost var back := pc;
      MoveAcked(ref);
      DropSettledCopy(ref, back);
      spool := spool - {Ack(ref, name)};
      pc := back;
      Settles(SettleDropAck);
    }

    // The original moves to acked, if it is still waiting.
    method MoveAcked(ref: Id)
      requires Valid() && (pc == Idle || pc == Tail) && Ack(ref, name) in spool
      modifies this`out, this`pc, this`path
      ensures Valid() && old(path) <= path
      ensures pc == Settling(ref, old(pc)) && out == SettledOut(old(out), {ref})
    {
      if ref in out.new_ {
        out := out.(new_ := out.new_ - {ref}, acked := out.acked[ref := out.new_[ref]]);
      }
      pc := Settling(ref, pc);
      Settles(SettleMove(ref));
      assert out.acked == SettledOut(old(out), {ref}).acked;
    }

    method DropSettledCopy(ref: Id, ghost back: Pc)
      requires Valid() && pc == Settling(ref, back)
      modifies this`spool, this`pc, this`path
      ensures Valid() && old(path) <= path
      ensures pc == Settled(ref, back) && spool == old(spool) - (set m | m in MessageOf(out, ref) :: Mail(m))
    {
      if ref in out.acked {
        spool := spool - {Mail(out.acked[ref])};
      } else if ref in out.dead {
        spool := spool - {Mail(out.dead[ref])};
      }
      assert spool == old(spool) - (set m | m in MessageOf(out, ref) :: Mail(m));
      pc := Settled(ref, back);
      Settles(SettleDropCopy);
    }

    method SettleAcks()
      requires Valid() && (pc == Idle || pc == Tail)
      modifies this`out, this`spool, this`pc, this`path
      ensures Valid() && old(path) <= path
      ensures AcksSettled(old(Abs()), Abs(), set f | f in old(spool) && f.Ack? && f.to == name :: f.ref)
    {
      var todo := set f | f in spool && f.Ack? && f.to == name :: f.ref;
      var refs: set<Id> := {};
      assert AcksSettled(Abs(), Abs(), {}) by { assert SettledOut(out, {}) == out; }
      while todo != {}
        invariant Valid() && old(path) <= path
        invariant todo + refs == set f | f in old(spool) && f.Ack? && f.to == name :: f.ref
        invariant todo !! refs
        invariant forall ref :: ref in todo ==> Ack(ref, name) in spool
        invariant AcksSettled(old(Abs()), Abs(), refs)
      {
        var ref :| ref in todo;
        ghost var before := Abs();
        SettleAck(ref);
        AckSettledSettles(before, ref);
        AcksSettledMore(old(Abs()), before, Abs(), refs, ref);
        todo, refs := todo - {ref}, refs + {ref};
      }
      assert refs == set f | f in old(spool) && f.Ack? && f.to == name :: f.ref;
    }

    // One message of the expiry loop.
    method ExpireOne(id: Id, now: int)
      requires Valid() && pc == Tail && id in out.new_ && out.new_[id].id == id && out.new_[id].expires <= now <= clock
      modifies this`out, this`spool, this`pc, this`path
      ensures Valid() && old(path) <= path
      ensures OutExpired(old(Abs()), Abs(), {id})
    {
      var m := out.new_[id];
      spool := spool + {Bounce(id, name)};
      pc := Expiring(m);
      Settles(ExpireBounce(id, now));
      out := out.(new_ := out.new_ - {id}, dead := out.dead[id := m]);
      pc := Expired(m);
      Settles(ExpireMove);
      spool := spool - {Mail(m)};
      pc := Tail;
      Settles(ExpireDrop);
      assert out == ExpiredOut(old(out), {id});
    }

    method ExpireOutbox() returns (now: int)
      requires Valid() && pc == Tail && forall id :: id in out.new_ ==> out.new_[id].id == id
      modifies this`clock, this`out, this`spool, this`pc, this`path
      ensures Valid() && old(path) <= path && old(clock) <= now == clock
      ensures OutExpired(old(Abs()).(clock := now), Abs(), set id | id in old(out.new_) && old(out.new_)[id].expires <= now)
    {
      now := Date();
      ghost var start := Abs();
      var todo := set id | id in out.new_ && out.new_[id].expires <= now;
      var ids: set<Id> := {};
      assert OutExpired(start, start, {}) by { assert ExpiredOut(out, {}) == out; }
      while todo != {}
        invariant Valid() && old(path) <= path && pc == Tail && clock == now && start == old(Abs()).(clock := now)
        invariant todo + ids == set id | id in start.out.new_ && start.out.new_[id].expires <= now
        invariant todo !! ids
        invariant OutExpired(start, Abs(), ids)
      {
        var id :| id in todo;
        ghost var before := Abs();
        assert id in out.new_ && out.new_[id] == start.out.new_[id];
        ExpireOne(id, now);
        OutExpiredMore(start, before, Abs(), ids, id);
        todo, ids := todo - {id}, ids + {id};
      }
      assert ids == set id | id in old(out.new_) && old(out.new_)[id].expires <= now;
    }

    // Copies every unexpired message of outbox/new to the spool.
    method CopyOutboxToSpool() returns (now: int)
      requires Valid()
      modifies this`clock, this`spool, this`path
      ensures Valid() && old(path) <= path && old(clock) <= now == clock
      ensures spool == old(spool) + set id | id in out.new_ && now < out.new_[id].expires :: Mail(out.new_[id])
    {
      now := Date();
      var all := set id | id in out.new_ && now < out.new_[id].expires;
      var todo := all;
      while todo != {}
        invariant Valid() && old(path) <= path && clock == now && todo <= all
        invariant spool == old(spool) + set id | id in all - todo :: Mail(out.new_[id])
      {
        var id :| id in todo;
        spool := spool + {Mail(out.new_[id])};
        Did(Materialise(id));
        todo := todo - {id};
      }
      assert all - todo == all;
    }

    // Keeps the lines of the last 60 days.
    method PruneDeliveredLog() returns (now: int)
      requires Valid() && pc == Tail
      modifies this`clock, this`box, this`path
      ensures Valid() && old(path) <= path && old(clock) <= now == clock
      ensures box == old(box).(log := Kept(old(box.log), now - LOG_KEEP))
    {
      now := Date();
      var kept: seq<LogLine> := [];
      var i := 0;
      while i < |box.log|
        invariant 0 <= i <= |box.log|
        invariant kept + Kept(box.log[i..], now - LOG_KEEP) == Kept(box.log, now - LOG_KEEP)
      {
        assert box.log[i..][1..] == box.log[i + 1..];
        if box.log[i].at >= now - LOG_KEEP {
          kept := kept + [box.log[i]];
        }
        i := i + 1;
      }
      box := box.(log := kept);
      Did(Retention(PruneLog(now)));
    }

    // Removes the read, acknowledged and dead messages that are past retention.
    method PruneMessageArchives(aged: set<Id>)
      requires Valid() && pc == Tail
      modifies this`out, this`box, this`path
      ensures Valid() && old(path) <= path
      ensures box == old(box).(cur := old(box.cur) - aged)
      ensures out == RetiredOut(old(out), aged)
      // the aged read, acknowledged and dead messages are gone, and nothing else is
      ensures forall id :: id in out.acked <==> id in old(out.acked) && id !in aged
      ensures forall id :: id in out.dead <==> id in old(out.dead) && id !in aged
      ensures out.new_ == old(out.new_)
    {
      var todo := aged * box.cur;
      while todo != {}
        invariant Valid() && old(path) <= path && out == old(out) && todo <= aged * box.cur
        invariant box == old(box).(cur := old(box.cur) - (aged - todo))
      {
        var id :| id in todo;
        box := box.(cur := box.cur - {id});
        Did(Retention(PruneCur(id)));
        todo := todo - {id};
      }
      PruneArchived(aged);
    }

    method PruneArchived(aged: set<Id>)
      requires Valid() && pc == Tail
      modifies this`out, this`path
      ensures Valid() && old(path) <= path
      ensures out == RetiredOut(old(out), aged)
    {
      var all := aged * (out.acked.Keys + out.dead.Keys);
      var todo := all;
      assert RetiredOut(out, {}) == out;
      while todo != {}
        invariant Valid() && old(path) <= path && todo <= all
        invariant out == RetiredOut(old(out), all - todo)
      {
        var id :| id in todo;
        RetiredOutMore(old(out), all - todo, id);
        assert all - (todo - {id}) == (all - todo) + {id};
        out := out.(acked := out.acked - {id}, dead := out.dead - {id}, retired := out.retired + {id});
        Did(Retention(PruneOut(id)));
        todo := todo - {id};
      }
      assert all - todo == all;
      RetiredOutSame(old(out), aged);
    }

    // The first half of a pass: what waits is spooled, what is addressed here taken in.
    method TakeIn() returns (copied: int)
      requires Valid() && pc == Idle && Tidy(Abs())
      modifies this`clock, this`box, this`spool, this`pc, this`path
      ensures Valid() && old(path) <= path && pc == Tail
      ensures Spooled(old(Abs()), Abs(), copied) && TakenIn(old(Abs()), Abs(), copied)
    {
      ghost var start := Abs();
      copied := CopyOutboxToSpool();
      ghost var full := Abs();
      FullIsTidy(start, full, copied);
      DeliverMessages();
      SweptSpools(start, full, Abs(), copied);
      SweptTakesIn(start, full, Abs(), copied);
    }

    // The second half: acknowledgements are settled, then what is too late expires.
    method SettleAndExpire() returns (now: int)
      requires Valid() && pc == Tail && NoOwnMail(Abs()) && OwnNames(out)
      modifies this`clock, this`out, this`spool, this`pc, this`path
      ensures Valid() && old(path) <= path && pc == Tail && old(clock) <= now == clock
      ensures NoOwnMail(Abs()) && NoOwnAcks(Abs())
      ensures SettledFirst(old(Abs()), Abs(), now) && Waits(old(Abs()), Abs(), now)
    {
      ghost var before := Abs();
      SettleAcks();
      SettledClean(before, Abs());
      ghost var between := Abs();
      now := ExpireOutbox();
      ExpiredClean(between.(clock := now), Abs());
      SettlesBeforeExpiry(before, between, Abs(), now);
      WaitsOn(before, between, Abs(), now);
    }

    // One pass under the state lock, in the order the routines run.
    method ReconcileCycle(retention: bool, aged: set<Id>) returns (now: int)
      requires Valid() && pc == Idle && Tidy(Abs())
      modifies this`clock, this`out, this`box, this`spool, this`pc, this`path
      ensures Valid() && old(path) <= path && pc == Idle && old(clock) <= now <= clock
      // everything addressed here has been taken out of the spool
      ensures NoOwnMail(Abs()) && NoOwnAcks(Abs())
      // what still waits has not expired, is for another node, and is in the spool again
      ensures forall id :: id in out.new_ ==>
        && id in old(out.new_) && out.new_[id] == old(out.new_)[id] && now < out.new_[id].expires
        && out.new_[id].dst != name && Mail(out.new_[id]) in spool
      // nothing stops waiting but for its acknowledgement or its expiry
      ensures forall id :: id in old(out.new_) && id !in out.new_ ==>
        if id in out.dead then old(out.new_)[id].expires <= now && Bounce(id, name) in spool
        else id in out.acked || (retention && id in out.retired)
      // a message whose acknowledgement is here is not declared undeliverable, however late
      ensures forall id :: id in old(out.new_) && Ack(id, name) in old(spool) && id !in old(out.dead) ==>
        id !in out.dead && (id in out.acked || (retention && id in out.retired)) &&
        (Bounce(id, name) in spool ==> Bounce(id, name) in old(spool))
      // every letter that had arrived is expired or on record, unless old records were pruned
      ensures !retention ==> forall m :: Mail(m) in old(spool) && m.dst == name ==> m.expires <= clock || InLog(box.log, m.id)
      ensures old(box.installs) <= box.installs && out.enqueued == old(out.enqueued)
    {
      ghost var start := Abs();
      var copied := TakeIn();
      ghost var taken := Abs();
      now := SettleAndExpire();
      CycleSpools(start, taken, Abs(), copied, now);
      CycleSettles(start, taken, Abs(), copied, now);
      EndPass(retention, aged);
    }

    // The retention sweeps, if they are due, and the end of the pass.
    method EndPass(retention: bool, aged: set<Id>)
      requires Valid() && pc == Tail
      modifies this`clock, this`out, this`box, this`pc, this`path
      ensures Valid() && old(path) <= path && pc == Idle && old(clock) <= clock
      ensures out == if retention then RetiredOut(old(out), aged) else old(out)
      ensures box.installs == old(box.installs) && (!retention ==> box == old(box))
    {
      if retention {
        PruneMessageArchives(aged);
        var pruned := PruneDeliveredLog();
      }
      pc := Idle;
      Did(Retention(EndCycle));
    }

    // khala send without a request key.
    method CmdSend(m: Message) returns (ok: bool)
      requires Valid() && MaySend(Abs(), m)
      modifies this`out, this`spool, this`path
      ensures Valid() && old(path) <= path
      ensures ok == (m.id !in old(out.new_))
      ensures !ok ==> out == old(out) && spool == old(spool)
      ensures ok ==> out == old(out).(new_ := old(out.new_)[m.id := m], enqueued := old(out.enqueued) + {m.id}, retired := old(out.retired) - {m.id})
                     && spool == old(spool) + {Mail(m)}
    {
      ok := m.id !in out.new_;
      if ok {
        out := out.(new_ := out.new_[m.id := m], enqueued := out.enqueued + {m.id}, retired := out.retired - {m.id});
        Did(Post(m));
        spool := spool + {Mail(m)};
        Did(Materialise(m.id));
      }
    }

    ghost method Requests(k: KeyedStep)
      requires Run(path) && CanKeyed(path[|path| - 1].n, k) && KeyedSend(path[|path| - 1].n, k) == Abs()
      modifies this`path
      ensures Valid() && path == old(path) + [Moment(Abs(), Some(KeyedAction(k)))]
    {
      Did(KeyedAction(k));
    }

    // Freezes a new intent, or recognises the saved one; false means a conflict.
    method BindRequest(key: string, args: SendArgs, m: Message) returns (ok: bool)
      requires Valid() && keyed.rpc == RIdle && Sound(args) && MaySend(Abs(), m)
      modifies this`keyed, this`path
      ensures Valid() && old(path) <= path
      ensures ok == (key in old(keyed.requests) ==> Matches(old(keyed.requests)[key].input, args))
      ensures !ok ==> keyed == old(keyed).(answers := old(keyed.answers) + [Conflict(key)])
      ensures ok ==> keyed == old(keyed).(rpc := RBound(key), requests := old(keyed.requests)[key :=
        if key in old(keyed.requests) then old(keyed.requests)[key].(input := Canonical(args))
        else Request(args, Canonical(args), m, false)])
    {
      if key in keyed.requests {
        ok := Matches(keyed.requests[key].input, args);
        if ok {
          keyed := keyed.(requests := keyed.requests[key := keyed.requests[key].(input := Canonical(args))], rpc := RBound(key));
          Requests(Resume(key, args));
        } else {
          keyed := keyed.(answers := keyed.answers + [Conflict(key)]);
          Requests(Reject(key, args));
        }
      } else {
        keyed := keyed.(requests := keyed.requests[key := Request(args, Canonical(args), m, false)], rpc := RBound(key));
        Requests(Bind(key, args, m, false));
        ok := true;
      }
    }

    // Looks for the bound message in new, acked and dead, in that order.
    method FindPublished(key: string) returns (found: bool)
      requires Valid() && keyed.rpc == RBound(key) && key in keyed.requests && !keyed.requests[key].published
      modifies this`keyed, this`path
      ensures Valid() && old(path) <= path
      ensures var id := old(keyed.requests)[key].m.id; found <==> id in out.new_ || id in out.acked || id in out.dead
      ensures keyed == old(keyed).(rpc := if found then RFound(key) else RMissing(key))
    {
      var id := keyed.requests[key].m.id;
      found := id in out.new_;
      keyed := keyed.(rpc := if found then RFound(key) else RLookAcked(key));
      Requests(LookNew);
      if !found {
        found := id in out.acked;
        keyed := keyed.(rpc := if found then RFound(key) else RLookDead(key));
        Requests(LookAcked);
      }
      if !found {
        found := id in out.dead;
        keyed := keyed.(rpc := if found then RFound(key) else RMissing(key));
        Requests(LookDead);
      }
    }

    // Links a missing message, if it has not expired.
    method LinkMissing(key: string) returns (ok: bool)
      requires Valid() && keyed.rpc == RMissing(key) && key in keyed.requests && keyed.requests[key].m.id !in out.new_
      modifies this`clock, this`out, this`keyed, this`path
      ensures Valid() && old(path) <= path && old(clock) <= clock
      ensures ok <==> clock < old(keyed.requests)[key].m.expires
      ensures ok ==> keyed == old(keyed).(rpc := RFound(key)) && out == Enqueue(old(Abs()), old(keyed.requests)[key].m).out
      ensures !ok ==> keyed == Say(old(keyed), TooLate(key)) && out == old(out)
    {
      var m := keyed.requests[key].m;
      var now := Date();
      if m.expires <= now {
        keyed := Say(keyed, TooLate(key));
        Requests(ReadExpiry);
        return false;
      }
      keyed := keyed.(rpc := RReady(key, now));
      Requests(ReadExpiry);
      out := out.(new_ := out.new_[m.id := m], enqueued := out.enqueued + {m.id}, retired := out.retired - {m.id});
      keyed := keyed.(rpc := RFound(key));
      Requests(Link);
      ok := true;
    }

    // Marks the message published, spools it while it is still in outbox/new, answers.
    method PublishFound(key: string)
      requires Valid() && keyed.rpc == RFound(key) && key in keyed.requests
      modifies this`spool, this`keyed, this`path
      ensures Valid() && old(path) <= path
      ensures var r := old(keyed.requests)[key];
        && spool == old(spool) + (if r.m.id in out.new_ then {Mail(r.m)} else {})
        && keyed == Say(old(keyed), Sent(key, r.m.id)).(requests := old(keyed.requests)[key := r.(published := true)])
    {
      var m := keyed.requests[key].m;
      keyed := keyed.(requests := keyed.requests[key := keyed.requests[key].(published := true)], rpc := RMarked(key));
      Requests(Mark);
      SpoolMarked(key, m);
      keyed := Say(keyed, Sent(key, m.id));
      Requests(AnswerSent);
    }

    method SpoolMarked(key: string, m: Message)
      requires Valid() && keyed.rpc == RMarked(key) && key in keyed.requests && keyed.requests[key].m == m
      modifies this`spool, this`keyed, this`path
      ensures Valid() && old(path) <= path
      ensures keyed == old(keyed).(rpc := RReply(key))
      ensures spool == old(spool) + (if m.id in out.new_ then {Mail(m)} else {})
    {
      var still := m.id in out.new_;
      keyed := keyed.(rpc := if still then RCopy(key) else RReply(key));
      Requests(CheckNew);
      if still {
        spool := spool + {Mail(m)};
        keyed := keyed.(rpc := RReply(key));
        Requests(CopyNow);
      }
    }

    // From the bound intent on: answer at once, or make sure it is queued first.
    method PublishBound(key: string) returns (answer: Answer)
      requires Valid() && keyed.rpc == RBound(key) && key in keyed.requests
      modifies this`clock, this`out, this`spool, this`keyed, this`path
      ensures Valid() && old(path) <= path && keyed.rpc == RIdle
      ensures keyed.answers == old(keyed.answers) + [answer]
      ensures var m := old(keyed.requests)[key].m;
        && key in keyed.requests && keyed.requests[key].m == m
        && (answer == Sent(key, m.id) || (answer == TooLate(key) && out == old(out) && spool == old(spool)))
        && (out == old(out) || (answer.Sent? && InNone(old(out), m.id) && out == Enqueue(old(Abs()), m).out && Mail(m) in spool))
        && (answer.Sent? ==> keyed.requests[key].published)
        && (answer.TooLate? ==> InNone(out, m.id) && !keyed.requests[key].published && m.expires <= clock)
    {
      var bound := keyed.requests[key].m;
      if keyed.requests[key].published {
        keyed := Say(keyed, Sent(key, bound.id));
        Requests(AnswerPublished);
        return Sent(key, bound.id);
      }
      var found := FindPublished(key);
      if !found {
        var linked := LinkMissing(key);
        if !linked {
          return TooLate(key);
        }
      }
      PublishFound(key);
      answer := Sent(key, bound.id);
    }

    // khala send --request-id: m is the message prepared for a first use of the key.
    method CmdSendRequest(key: string, args: SendArgs, m: Message) returns (answer: Answer)
      requires Valid() && keyed.rpc == RIdle && Sound(args) && MaySend(Abs(), m)
      modifies this`clock, this`out, this`spool, this`keyed, this`path
      ensures Valid() && old(path) <= path && keyed.rpc == RIdle
      ensures keyed.answers == old(keyed.answers) + [answer] && answer.key == key
      ensures answer.Conflict? <==> key in old(keyed.requests) && !Matches(old(keyed.requests)[key].input, args)
      ensures answer.Conflict? ==> keyed.requests == old(keyed.requests) && out == old(out) && spool == old(spool)
      ensures !answer.Conflict? ==>
        key in keyed.requests && keyed.requests[key].m == (if key in old(keyed.requests) then old(keyed.requests)[key].m else m)
      ensures answer.Sent? ==> answer.id == keyed.requests[key].m.id
      // a success means that the message has been queued, and spooled if it was linked now
      ensures answer.Sent? ==> keyed.requests[key].published
      ensures out != old(out) ==> Mail(keyed.requests[key].m) in spool
      // too late means that it never was and has expired
      ensures answer.TooLate? ==>
        && out == old(out) && spool == old(spool) && InNone(out, keyed.requests[key].m.id)
        && !keyed.requests[key].published && keyed.requests[key].m.expires <= clock
      ensures !answer.LinkFailed?
      ensures out == old(out) || (answer.Sent? && InNone(old(out), answer.id) && out == Enqueue(old(Abs()), keyed.requests[key].m).out)
    {
      var ok := BindRequest(key, args, m);
      if !ok {
        return Conflict(key);
      }
      answer := PublishBound(key);
    }
  }

  predicate NoOwnMail(n: NodeState) {
    forall f :: f in n.spool ==> !(f.Mail? && f.m.dst == n.name)
  }

  predicate NoOwnAcks(n: NodeState) {
    forall f :: f in n.spool ==> !(f.Ack? && f.to == n.name)
  }

  lemma SweptClean(a: NodeState, b: NodeState)
    requires Swept(a, b, {})
    ensures NoOwnMail(b)
  {
    forall f | f in b.spool
      ensures !(f.Mail? && f.m.dst == b.name)
    {
      if f in a.spool && f.Mail? {
        assert Mail(f.m) in a.spool;
      }
    }
  }

  lemma SettledClean(a: NodeState, b: NodeState)
    requires AcksSettled(a, b, set f | f in a.spool && f.Ack? && f.to == a.name :: f.ref) && NoOwnMail(a)
    ensures NoOwnAcks(b) && NoOwnMail(b)
  {
    var refs := set f | f in a.spool && f.Ack? && f.to == a.name :: f.ref;
    forall ref | Ack(ref, a.name) in a.spool
      ensures ref in refs
    {
      assert Ack(ref, a.name).ref == ref;
    }
    assert forall f :: f in b.spool && f.Ack? ==> f == Ack(f.ref, f.to);
  }

  lemma ExpiredClean(a: NodeState, b: NodeState)
    requires OutExpired(a, b, set id | id in a.out.new_ && a.out.new_[id].expires <= b.clock) && NoOwnMail(a) && NoOwnAcks(a)
    ensures NoOwnMail(b) && NoOwnAcks(b) && forall id :: id in b.out.new_ ==> b.clock < b.out.new_[id].expires
  {
  }

  // File names are Ids.
  predicate OwnNames(o: Outbox) {
    && (forall id :: id in o.new_ ==> o.new_[id].id == id)
    && (forall id :: id in o.acked ==> o.acked[id].id == id)
    && (forall id :: id in o.dead ==> o.dead[id].id == id)
  }

  // A box or the spool holds one message of an Id, and a box nothing of another's.
  predicate Tidy(n: NodeState) {
    && OneFilePerName(n.spool) && OwnNames(n.out)
    && (forall f :: f in n.spool && f.Mail? && f.m.id in n.out.new_ ==> f.m == n.out.new_[f.m.id])
    && (forall id :: id in n.out.new_ ==> n.out.new_[id].src == n.name && id !in n.out.acked && id !in n.out.dead)
  }

  // What waits for other nodes is in the spool, also where its copy was gone.
  ghost predicate Spooled(a: NodeState, b: NodeState, copied: int) {
    && b.out == a.out && a.clock <= copied <= b.clock
    && (forall id :: id in a.out.new_ && a.out.new_[id].dst != a.name && copied < a.out.new_[id].expires ==> Mail(a.out.new_[id]) in b.spool)
    && (forall f :: f in a.spool && !(f.Mail? && f.m.dst == a.name) ==> f in b.spool)
    && (forall f :: f in b.spool && f !in a.spool ==> f.Ack? || (f.Mail? && f.m.id in a.out.new_ && f.m == a.out.new_[f.m.id]))
  }

  // m was to be taken in: it was in the spool, or waits in the outbox for this node.
  predicate ToTakeIn(a: NodeState, m: Message, copied: int) {
    m.dst == a.name && (Mail(m) in a.spool || (m.id in a.out.new_ && a.out.new_[m.id] == m && copied < m.expires))
  }

  // Every such letter has expired, or is on record and acknowledged; what was not
  // known here has been installed, and nothing else.
  ghost predicate TakenIn(a: NodeState, b: NodeState, copied: int) {
    && b.name == a.name && NoOwnMail(b)
    && a.box.installs <= b.box.installs && a.box.new_ <= b.box.new_ && a.box.cur == b.box.cur
    && (forall m :: ToTakeIn(a, m, copied) ==>
         m.expires <= b.clock ||
         (InLog(b.box.log, m.id) && Ack(m.id, m.src) in b.spool &&
          (InLog(a.box.log, m.id) || InInbox(a.box, m.id) || m.id in b.box.installs[|a.box.installs|..])))
    && (forall id :: id in b.box.installs[|a.box.installs|..] ==>
         id in b.box.new_ && !InLog(a.box.log, id) && !InInbox(a.box, id) && exists m :: ToTakeIn(a, m, copied) && m.id == id)
  }

  // A waiting message is acknowledged if its acknowledgement is there; else, if it has
  // expired, it is bounced and dead; else it goes on waiting.
  ghost predicate SettledFirst(a: NodeState, b: NodeState, now: int) {
    && b.name == a.name && b.box == a.box && b.out.enqueued == a.out.enqueued && b.out.retired == a.out.retired
    && (forall id :: id in a.out.new_ ==>
         if Ack(id, a.name) in a.spool then
           && id !in b.out.new_ && id in b.out.acked && (id in b.out.dead <==> id in a.out.dead)
           && (Bounce(id, a.name) in b.spool ==> Bounce(id, a.name) in a.spool)
         else if a.out.new_[id].expires <= now then
           id !in b.out.new_ && id in b.out.dead && Bounce(id, a.name) in b.spool && (id in b.out.acked <==> id in a.out.acked)
         else id in b.out.new_)
  }

  // What goes on waiting keeps its place and its copy in the spool.
  ghost predicate Waits(a: NodeState, b: NodeState, now: int) {
    forall id :: id in b.out.new_ ==>
      && id in a.out.new_ && b.out.new_[id] == a.out.new_[id] && now < b.out.new_[id].expires
      && (Mail(b.out.new_[id]) in a.spool ==> Mail(b.out.new_[id]) in b.spool)
  }

  // After the copies have been made.
  ghost predicate Full(a: NodeState, b: NodeState, copied: int) {
    && a.clock <= copied && b == a.(clock := copied, spool := b.spool)
    && b.spool == a.spool + set id | id in a.out.new_ && copied < a.out.new_[id].expires :: Mail(a.out.new_[id])
  }

  lemma FullHas(a: NodeState, b: NodeState, copied: int)
    requires Full(a, b, copied)
    ensures a.spool <= b.spool
    ensures forall id :: id in a.out.new_ && copied < a.out.new_[id].expires ==> Mail(a.out.new_[id]) in b.spool
    ensures forall f :: f in b.spool && f !in a.spool ==> f.Mail? && exists id :: id in a.out.new_ && copied < a.out.new_[id].expires && f.m == a.out.new_[id]
  {
  }

  lemma FullIsTidy(a: NodeState, b: NodeState, copied: int)
    requires Full(a, b, copied) && Tidy(a)
    ensures OneFilePerName(b.spool)
  {
    FullHas(a, b, copied);
  }

  lemma SweptSpools(a: NodeState, full: NodeState, b: NodeState, copied: int)
    requires Full(a, full, copied) && Swept(full, b, {}) && Tidy(a)
    ensures Spooled(a, b, copied)
  {
    FullHas(a, full, copied);
  }

  lemma SweptTakesIn(a: NodeState, full: NodeState, b: NodeState, copied: int)
    requires Full(a, full, copied) && Swept(full, b, {}) && Took(full, b) && Tidy(a)
    ensures TakenIn(a, b, copied)
  {
    FullHas(a, full, copied);
    SweptClean(full, b);
    forall id | id in OwnMail(full)
      ensures exists m :: ToTakeIn(a, m, copied) && m.id == id
    {
      var f :| f in full.spool && f.Mail? && f.m.dst == full.name && f.m.id == id;
      assert ToTakeIn(a, f.m, copied);
    }
    forall m | ToTakeIn(a, m, copied)
      ensures Mail(m) in full.spool
    {
    }
  }

  lemma SettlesBeforeExpiry(a: NodeState, between: NodeState, b: NodeState, now: int)
    requires AcksSettled(a, between, set f | f in a.spool && f.Ack? && f.to == a.name :: f.ref)
    requires OutExpired(between.(clock := now), b, set id | id in between.out.new_ && between.out.new_[id].expires <= now)
    ensures SettledFirst(a, b, now)
  {
    var refs := set f | f in a.spool && f.Ack? && f.to == a.name :: f.ref;
    forall id
      ensures id in refs <==> Ack(id, a.name) in a.spool
    {
      assert Ack(id, a.name).ref == id;
    }
  }

  lemma WaitsOn(a: NodeState, between: NodeState, b: NodeState, now: int)
    requires OwnNames(a.out)
    requires AcksSettled(a, between, set f | f in a.spool && f.Ack? && f.to == a.name :: f.ref)
    requires OutExpired(between.(clock := now), b, set id | id in between.out.new_ && between.out.new_[id].expires <= now)
    ensures Waits(a, b, now)
  {
    forall id | id in b.out.new_ && Mail(b.out.new_[id]) in a.spool
      ensures Mail(b.out.new_[id]) in b.spool
    {
      assert b.out.new_[id] == a.out.new_[id];
      assert forall ref, m :: m in MessageOf(between.out, ref) ==> m.id == ref;
      assert Mail(b.out.new_[id]) in between.spool;
    }
  }

  // The spool after the whole cycle.
  lemma CycleSpools(a: NodeState, b: NodeState, c: NodeState, copied: int, now: int)
    requires Tidy(a) && Spooled(a, b, copied) && TakenIn(a, b, copied) && SettledFirst(b, c, now) && Waits(b, c, now) && b.clock <= now
    ensures forall id :: id in c.out.new_ ==>
      && id in a.out.new_ && c.out.new_[id] == a.out.new_[id] && now < c.out.new_[id].expires
      && c.out.new_[id].dst != a.name && Mail(c.out.new_[id]) in c.spool
  {
    forall id | id in c.out.new_
      ensures c.out.new_[id].dst != a.name && Mail(c.out.new_[id]) in c.spool
    {
      var m := c.out.new_[id];
      assert m.dst == a.name ==> ToTakeIn(a, m, copied);
      assert m.dst == a.name ==> Ack(id, a.name) in b.spool;
    }
  }

  lemma CycleSettles(a: NodeState, b: NodeState, c: NodeState, copied: int, now: int)
    requires Tidy(a) && Spooled(a, b, copied) && SettledFirst(b, c, now) && TakenIn(a, b, copied)
    ensures forall id :: id in a.out.new_ && id !in c.out.new_ ==>
      if id in c.out.dead then a.out.new_[id].expires <= now && Bounce(id, a.name) in c.spool else id in c.out.acked
    ensures forall id :: id in a.out.new_ && Ack(id, a.name) in a.spool && id !in a.out.dead ==>
      id !in c.out.dead && id in c.out.acked && (Bounce(id, a.name) in c.spool ==> Bounce(id, a.name) in a.spool)
  {
  }

  // The outbox after retention has removed the aged messages.
  function RetiredOut(o: Outbox, aged: set<Id>): Outbox {
    o.(acked := o.acked - aged, dead := o.dead - aged, retired := o.retired + aged * (o.acked.Keys + o.dead.Keys))
  }

  lemma RetiredOutMore(o: Outbox, done: set<Id>, id: Id)
    requires id in o.acked || id in o.dead
    ensures var p := RetiredOut(o, done);
      p.(acked := p.acked - {id}, dead := p.dead - {id}, retired := p.retired + {id}) == RetiredOut(o, done + {id})
  {
    var p := RetiredOut(o, done);
    assert p.acked - {id} == o.acked - (done + {id}) && p.dead - {id} == o.dead - (done + {id});
    assert p.retired + {id} == RetiredOut(o, done + {id}).retired;
  }

  lemma RetiredOutSame(o: Outbox, aged: set<Id>)
    ensures RetiredOut(o, aged * (o.acked.Keys + o.dead.Keys)) == RetiredOut(o, aged)
  {
    var all := aged * (o.acked.Keys + o.dead.Keys);
    assert o.acked - all == o.acked - aged && o.dead - all == o.dead - aged;
    assert all * (o.acked.Keys + o.dead.Keys) == all;
  }
}
