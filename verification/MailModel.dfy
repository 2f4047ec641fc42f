/**
  The mail core as a distributed transition system.

  A node keeps its own outbox (new/acked/dead), spool, inbox (new/cur), delivered
  log and keyed-send records. Every step below is ONE file operation of one
  routine, so a crash between any two of them, and any interleaving with other
  nodes, with the network and with a concurrent keyed send, is a run of this system.
  The network may copy anything that was ever spooled to any node, any number of
  times and arbitrarily late, and may lose copies in transit.
*/
module MailModel {
  import opened SendRecord

  // The longest lifetime a sender may ask for: 59 days.
  const TTL_CAP := 5097600
  // How long a line of the delivered log is kept: 60 days.
  const LOG_KEEP := 5184000

  type Node = string

  // <epoch>.<pid>.<rand>.<from>
  datatype Id = Id(epoch: int, pid: nat, rand: nat, from: string)

  datatype Message = Message(id: Id, src: Node, dst: Node, sentAt: int, expires: int)

  // What a spool directory holds. An acknowledgement or bounce is determined by
  // the message it refers to and its addressee.
  datatype File = Mail(m: Message) | Ack(ref: Id, to: Node) | Bounce(ref: Id, to: Node)
  {
    function Addressee(): Node {
      match this
      case Mail(m) => m.dst
      case Ack(_, to) => to
      case Bounce(_, to) => to
    }
  }

  // A line of the delivered log.
  datatype LogLine = LogLine(at: int, id: Id)

  // The sender's copies. `enqueued` and `retired` are history: every Id ever
  // linked into outbox/new, and those retention has removed since.
  datatype Outbox = Outbox(new_: map<Id, Message>, acked: map<Id, Message>, dead: map<Id, Message>,
                           enqueued: set<Id>, retired: set<Id>)

  // The recipient's side. `installs` is history: every inbox installation, in order.
  datatype Inbox = Inbox(new_: set<Id>, cur: set<Id>, log: seq<LogLine>, installs: seq<Id>)

  datatype Request = Request(args: SendArgs, input: string, m: Message, published: bool)

  datatype Answer =
    | Sent(key: string, id: Id)
    | Conflict(key: string)      // same key, different arguments or body
    | TooLate(key: string)       // the saved intent expired before publication
    | LinkFailed(key: string)

  // Where the holder of the keyed-send lock stands.
  datatype RequestPc =
    | RIdle
    | RBound(key: string)        // the intent is on disk and matches this call
    | RLookAcked(key: string)    // not in outbox/new when looked
    | RLookDead(key: string)     // nor in outbox/acked
    | RMissing(key: string)      // nor in outbox/dead
    | RReady(key: string, now: int) // not expired at this clock reading
    | RFound(key: string)        // in the outbox; not yet marked published
    | RMarked(key: string)
    | RCopy(key: string)         // still in outbox/new: spool it now
    | RReply(key: string)

  datatype Keyed = Keyed(requests: map<string, Request>, rpc: RequestPc, answers: seq<Answer>)

  // Where the holder of the node's state lock stands.
  datatype Pc =
    | Idle                                                    // nobody holds the lock
    | Sweep(todo: set<Id>)                                    // between two files of the delivery loop
    | Dated(todo: set<Id>, m: Message, now: int)              // clock read for this file
    | Installed(todo: set<Id>, m: Message, now: int)          // inbox file exists, log line does not
    | Logged(todo: set<Id>, m: Message)                       // acknowledgement not yet queued
    | Acked(todo: set<Id>, m: Message)                        // spool copy not yet consumed
    | Tail                                                    // the delivery loop is over
    | Settling(ref: Id, back: Pc)                             // acknowledged original moved
    | Settled(ref: Id, back: Pc)                              // its spool copy removed
    | Expiring(m: Message)                                    // bounce queued, not yet in dead
    | Expired(m: Message)                                     // in dead, spool copy not yet removed

  datatype NodeState = NodeState(name: Node, clock: int, out: Outbox, spool: set<File>,
                                 box: Inbox, pc: Pc, keyed: Keyed)

  predicate InLog(log: seq<LogLine>, id: Id) {
    exists line :: line in log && line.id == id
  }

  predicate InInbox(b: Inbox, id: Id) {
    id in b.new_ || id in b.cur
  }

  predicate InNone(o: Outbox, id: Id) {
    id !in o.new_ && id !in o.acked && id !in o.dead
  }

  // The Ids of the messages in the node's own spool directory.
  function OwnMail(n: NodeState): set<Id> {
    set f | f in n.spool && f.Mail? && f.m.dst == n.name :: f.m.id
  }

  // What pruning keeps of the delivered log.
  function Kept(log: seq<LogLine>, before: int): seq<LogLine> {
    if log == [] then []
    else if log[0].at >= before then [log[0]] + Kept(log[1..], before)
    else Kept(log[1..], before)
  }

  predicate MaySend(n: NodeState, m: Message) {
    m.src == n.name && m.sentAt <= n.clock && m.sentAt <= m.expires <= m.sentAt + TTL_CAP
  }

  // ------------------------------------------------------------ the delivery loop

  datatype DeliverStep =
    | Begin
    | ReadClock(m: Message)
    | DropExpired
    | FindLogged
    | Repair(at: int)
    | Install
    | Record(at: int)
    | QueueAck
    | Consume
    | EndSweep

  predicate CanDeliver(n: NodeState, d: DeliverStep) {
    match d
    case Begin => n.pc == Idle
    case ReadClock(m) => n.pc.Sweep? && m.id in n.pc.todo && m.dst == n.name && Mail(m) in n.spool
    case DropExpired => n.pc.Dated? && n.pc.m.expires <= n.pc.now
    case FindLogged => n.pc.Dated? && n.pc.now < n.pc.m.expires && InLog(n.box.log, n.pc.m.id)
    case Repair(at) => n.pc.Dated? && n.pc.now < n.pc.m.expires && !InLog(n.box.log, n.pc.m.id)
                       && InInbox(n.box, n.pc.m.id) && n.pc.now <= at <= n.clock
    case Install => n.pc.Dated? && n.pc.now < n.pc.m.expires && !InLog(n.box.log, n.pc.m.id)
                    && !InInbox(n.box, n.pc.m.id)
    case Record(at) => n.pc.Installed? && n.pc.now <= at <= n.clock
    case QueueAck => n.pc.Logged?
    case Consume => n.pc.Acked?
    case EndSweep => n.pc == Sweep({})
  }

  function Deliver(n: NodeState, d: DeliverStep): NodeState
    requires CanDeliver(n, d)
  {
    match d
    case Begin => n.(pc := Sweep(OwnMail(n)))
    case ReadClock(m) => n.(pc := Dated(n.pc.todo - {m.id}, m, n.clock))
    case DropExpired => n.(spool := n.spool - {Mail(n.pc.m)}, pc := Sweep(n.pc.todo))
    case FindLogged => n.(pc := Logged(n.pc.todo, n.pc.m))
    case Repair(at) => n.(box := n.box.(log := n.box.log + [LogLine(at, n.pc.m.id)]), pc := Logged(n.pc.todo, n.pc.m))
    case Install => n.(box := n.box.(new_ := n.box.new_ + {n.pc.m.id}, installs := n.box.installs + [n.pc.m.id]),
                       pc := Installed(n.pc.todo, n.pc.m, n.pc.now))
    case Record(at) => n.(box := n.box.(log := n.box.log + [LogLine(at, n.pc.m.id)]), pc := Logged(n.pc.todo, n.pc.m))
    case QueueAck => n.(spool := n.spool + {Ack(n.pc.m.id, n.pc.m.src)}, pc := Acked(n.pc.todo, n.pc.m))
    case Consume => n.(spool := n.spool - {Mail(n.pc.m)}, pc := Sweep(n.pc.todo))
    case EndSweep => n.(pc := Tail)
  }

  // -------------------------------------- settlement of acknowledgements, expiry

  datatype SettleStep =
    | SettleMove(ref: Id)
    | SettleDropCopy
    | SettleDropAck
    | ExpireBounce(id: Id, now: int)
    | ExpireMove
    | ExpireDrop

  predicate CanSettle(n: NodeState, a: SettleStep) {
    match a
    case SettleMove(ref) => (n.pc == Idle || n.pc == Tail) && Ack(ref, n.name) in n.spool
    case SettleDropCopy => n.pc.Settling?
    case SettleDropAck => n.pc.Settled?
    case ExpireBounce(id, now) => n.pc == Tail && id in n.out.new_ && n.out.new_[id].expires <= now <= n.clock
    case ExpireMove => n.pc.Expiring? && n.pc.m.id in n.out.new_
    case ExpireDrop => n.pc.Expired?
  }

  function Settle(n: NodeState, a: SettleStep): NodeState
    requires CanSettle(n, a)
  {
    match a
    case SettleMove(ref) =>
      if ref in n.out.new_
      then n.(out := n.out.(new_ := n.out.new_ - {ref}, acked := n.out.acked[ref := n.out.new_[ref]]),
              pc := Settling(ref, n.pc))
      else n.(pc := Settling(ref, n.pc))
    case SettleDropCopy =>
      var ref := n.pc.ref;
      var copy := if ref in n.out.acked then {Mail(n.out.acked[ref])}
                  else if ref in n.out.dead then {Mail(n.out.dead[ref])} else {};
      n.(spool := n.spool - copy, pc := Settled(ref, n.pc.back))
    case SettleDropAck => n.(spool := n.spool - {Ack(n.pc.ref, n.name)}, pc := n.pc.back)
    case ExpireBounce(id, now) =>
      n.(spool := n.spool + {Bounce(id, n.name)}, pc := Expiring(n.out.new_[id]))
    case ExpireMove =>
      n.(out := n.out.(new_ := n.out.new_ - {n.pc.m.id}, dead := n.out.dead[n.pc.m.id := n.pc.m]),
         pc := Expired(n.pc.m))
    case ExpireDrop => n.(spool := n.spool - {Mail(n.pc.m)}, pc := Tail)
  }

  // ---------------------------------------------------------------- retention

  datatype RetainStep =
    | PruneCur(id: Id)
    | PruneOut(id: Id)
    | PruneLog(now: int)
    | EndCycle

  predicate CanRetain(n: NodeState, a: RetainStep) {
    n.pc == Tail &&
    match a
    case PruneCur(id) => id in n.box.cur
    case PruneOut(id) => id in n.out.acked || id in n.out.dead
    case PruneLog(now) => now <= n.clock
    case EndCycle => true
  }

  function Retain(n: NodeState, a: RetainStep): NodeState
    requires CanRetain(n, a)
  {
    match a
    case PruneCur(id) => n.(box := n.box.(cur := n.box.cur - {id}))
    case PruneOut(id) =>
      n.(out := n.out.(acked := n.out.acked - {id}, dead := n.out.dead - {id}, retired := n.out.retired + {id}))
    case PruneLog(now) => n.(box := n.box.(log := Kept(n.box.log, now - LOG_KEEP)))
    case EndCycle => n.(pc := Idle)
  }

  // --------------------------------------------------------------- keyed send

  datatype KeyedStep =
    | Bind(key: string, args: SendArgs, m: Message, legacy: bool)
    | Resume(key: string, args: SendArgs)
    | Reject(key: string, args: SendArgs)
    | AnswerPublished
    | LookNew
    | LookAcked
    | LookDead
    | ReadExpiry
    | Link
    | Mark
    | CheckNew
    | CopyNow
    | AnswerSent

  predicate Holds(k: Keyed) {
    !k.rpc.RIdle? && k.rpc.key in k.requests
  }

  predicate CanKeyed(n: NodeState, a: KeyedStep) {
    var k := n.keyed;
    match a
    case Bind(key, args, m, _) => Sound(args) && k.rpc == RIdle && key !in k.requests && MaySend(n, m)
    case Resume(key, args) => Sound(args) && k.rpc == RIdle && key in k.requests && Matches(k.requests[key].input, args)
    case Reject(key, args) => Sound(args) && k.rpc == RIdle && key in k.requests && !Matches(k.requests[key].input, args)
    case AnswerPublished => Holds(k) && k.rpc.RBound? && k.requests[k.rpc.key].published
    case LookNew => Holds(k) && k.rpc.RBound? && !k.requests[k.rpc.key].published
    case LookAcked => Holds(k) && k.rpc.RLookAcked?
    case LookDead => Holds(k) && k.rpc.RLookDead?
    case ReadExpiry => Holds(k) && k.rpc.RMissing?
    case Link => Holds(k) && k.rpc.RReady?
    case Mark => Holds(k) && k.rpc.RFound?
    case CheckNew => Holds(k) && k.rpc.RMarked?
    case CopyNow => Holds(k) && k.rpc.RCopy?
    case AnswerSent => Holds(k) && k.rpc.RReply?
  }

  function Current(n: NodeState): Message
    requires Holds(n.keyed)
  {
    n.keyed.requests[n.keyed.rpc.key].m
  }

  function Say(k: Keyed, a: Answer): Keyed {
    k.(answers := k.answers + [a], rpc := RIdle)
  }

  function KeyedSend(n: NodeState, a: KeyedStep): NodeState
    requires CanKeyed(n, a)
  {
    var k := n.keyed;
    match a
    case Bind(key, args, m, legacy) =>
      var input := if legacy then Legacy(args) else Canonical(args);
      n.(keyed := k.(requests := k.requests[key := Request(args, input, m, false)], rpc := RBound(key)))
    case Resume(key, args) =>
      n.(keyed := k.(requests := k.requests[key := k.requests[key].(input := Canonical(args))], rpc := RBound(key)))
    case Reject(key, args) => n.(keyed := Say(k, Conflict(key)))
    case AnswerPublished => n.(keyed := Say(k, Sent(k.rpc.key, Current(n).id)))
    case LookNew => n.(keyed := k.(rpc := if Current(n).id in n.out.new_ then RFound(k.rpc.key) else RLookAcked(k.rpc.key)))
    case LookAcked => n.(keyed := k.(rpc := if Current(n).id in n.out.acked then RFound(k.rpc.key) else RLookDead(k.rpc.key)))
    case LookDead => n.(keyed := k.(rpc := if Current(n).id in n.out.dead then RFound(k.rpc.key) else RMissing(k.rpc.key)))
    case ReadExpiry =>
      n.(keyed := if Current(n).expires <= n.clock then Say(k, TooLate(k.rpc.key)) else k.(rpc := RReady(k.rpc.key, n.clock)))
    case Link =>
      if Current(n).id in n.out.new_ then n.(keyed := Say(k, LinkFailed(k.rpc.key)))
      else Enqueue(n.(keyed := k.(rpc := RFound(k.rpc.key))), Current(n))
    case Mark =>
      n.(keyed := k.(requests := k.requests[k.rpc.key := k.requests[k.rpc.key].(published := true)], rpc := RMarked(k.rpc.key)))
    case CheckNew => n.(keyed := k.(rpc := if Current(n).id in n.out.new_ then RCopy(k.rpc.key) else RReply(k.rpc.key)))
    case CopyNow => n.(spool := n.spool + {Mail(Current(n))}, keyed := k.(rpc := RReply(k.rpc.key)))
    case AnswerSent => n.(keyed := Say(k, Sent(k.rpc.key, Current(n).id)))
  }

  // --------------------------------------------------------------- one node

  datatype Action =
    | Post(m: Message)
    | Materialise(id: Id)
    | Delivery(d: DeliverStep)
    | Settlement(s: SettleStep)
    | Retention(r: RetainStep)
    | Drain(id: Id)
    | KeyedAction(k: KeyedStep)
    | Crash                      // the lock holder dies
    | CrashRequest               // the keyed send dies

  // Links m into outbox/new.
  function Enqueue(n: NodeState, m: Message): NodeState {
    n.(out := n.out.(new_ := n.out.new_[m.id := m], enqueued := n.out.enqueued + {m.id}, retired := n.out.retired - {m.id}))
  }

  predicate Enabled(n: NodeState, a: Action) {
    match a
    case Post(m) => MaySend(n, m) && m.id !in n.out.new_
    case Materialise(id) => id in n.out.new_
    case Delivery(d) => CanDeliver(n, d)
    case Settlement(s) => CanSettle(n, s)
    case Retention(r) => CanRetain(n, r)
    case Drain(id) => n.pc == Idle && id in n.box.new_
    case KeyedAction(k) => CanKeyed(n, k)
    case Crash => true
    case CrashRequest => true
  }

  function Apply(n: NodeState, a: Action): NodeState
    requires Enabled(n, a)
  {
    match a
    case Post(m) => Enqueue(n, m)
    case Materialise(id) => n.(spool := n.spool + {Mail(n.out.new_[id])})
    case Delivery(d) => Deliver(n, d)
    case Settlement(s) => Settle(n, s)
    case Retention(r) => Retain(n, r)
    case Drain(id) => n.(box := n.box.(new_ := n.box.new_ - {id}, cur := n.box.cur + {id}))
    case KeyedAction(k) => KeyedSend(n, k)
    case Crash => n.(pc := Idle)
    case CrashRequest => n.(keyed := n.keyed.(rpc := RIdle))
  }

  // The message an action prepares, if any.
  function Prepared(a: Action): set<Message> {
    match a
    case Post(m) => {m}
    case KeyedAction(k) => if k.Bind? then {k.m} else {}
    case _ => {}
  }

  // ---------------------------------------------------------------- the network

  // `ever` is every file that was ever in some spool; `sent` every message ever
  // prepared, by Id.
  datatype Net = Net(nodes: map<Node, NodeState>, ever: set<File>, sent: map<Id, Message>)

  datatype Event =
    | Local(who: Node, a: Action)
    | Arrive(who: Node, f: File)
    | Vanish(who: Node, f: File)
    | Tick(who: Node, t: int)

  // The one assumption about clocks: when a message is prepared, its recipient's
  // clock is at most `skew` seconds behind the sender's reading. Message Ids are
  // not reused.
  predicate Fresh(s: Net, m: Message, skew: int) {
    m.id !in s.sent && m.dst in s.nodes && s.nodes[m.dst].clock >= m.sentAt - skew
  }

  predicate Possible(s: Net, e: Event, skew: int) {
    e.who in s.nodes &&
    match e
    case Local(who, a) => Enabled(s.nodes[who], a) && forall m :: m in Prepared(a) ==> Fresh(s, m, skew)
    case Arrive(who, f) => f in s.ever
    case Vanish(who, f) => f.Addressee() != who
    case Tick(who, t) => t >= s.nodes[who].clock
  }

  function NewSent(sent: map<Id, Message>, a: Action): map<Id, Message> {
    match a
    case Post(m) => sent[m.id := m]
    case KeyedAction(k) => if k.Bind? then sent[k.m.id := k.m] else sent
    case _ => sent
  }

  function SentAfter(s: Net, e: Event): map<Id, Message> {
    if e.Local? then NewSent(s.sent, e.a) else s.sent
  }

  // The node the event happens at, after it.
  function NodeAfter(s: Net, e: Event, skew: int): NodeState
    requires Possible(s, e, skew)
  {
    var n := s.nodes[e.who];
    match e
    case Local(_, a) => Apply(n, a)
    case Arrive(_, f) => n.(spool := n.spool + {f})
    case Vanish(_, f) => n.(spool := n.spool - {f})
    case Tick(_, t) => n.(clock := t)
  }

  function After(s: Net, e: Event, skew: int): Net
    requires Possible(s, e, skew)
  {
    var n' := NodeAfter(s, e, skew);
    Net(s.nodes[e.who := n'], s.ever + n'.spool, SentAfter(s, e))
  }

  function NewNode(name: Node, clock: int): NodeState {
    NodeState(name, clock, Outbox(map[], map[], map[], {}, {}), {}, Inbox({}, {}, [], []), Idle, Keyed(map[], RIdle, []))
  }

  predicate Initial(s: Net) {
    s.ever == {} && s.sent == map[] &&
    forall k :: k in s.nodes ==> s.nodes[k] == NewNode(k, s.nodes[k].clock)
  }

  // t is s after the events es, one after another.
  predicate Leads(s: Net, es: seq<Event>, t: Net, skew: int)
    decreases |es|
  {
    if es == [] then s == t
    else Possible(s, es[0], skew) && Leads(After(s, es[0], skew), es[1..], t, skew)
  }

  ghost predicate Reachable(t: Net, skew: int) {
    exists s, es :: Initial(s) && Leads(s, es, t, skew)
  }
}
