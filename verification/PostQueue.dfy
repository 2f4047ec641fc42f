/**
  The gateway's queue of chat posts (link/gateway.go): the inbox scan enqueues, the
  send loop posts and acknowledges, and neither waits for the other. Every step
  below is one call under one lock, so any interleaving of the two loops is a run.
*/
module PostQueue {
  type Id = string

  // Where scanInbox stands with one listed message.
  datatype Scanner =
    | SIdle
    | SListed(todo: seq<Id>)               // the listing is a snapshot
    | SChecked(id: Id, todo: seq<Id>)      // not in flight when asked
    | SRelaying(id: Id, todo: seq<Id>)     // its file was still in new/

  // Where the send loop stands.
  datatype Sender =
    | Idle
    | Popped(id: Id)
    | Posted(id: Id)                       // posted, not yet acknowledged
    | Closing(id: Id)                      // acknowledged or not, still in flight

  datatype Event =
    | Enqueued(id: Id)
    | PostDone(id: Id)
    | PostFailed(id: Id)
    | AckDone(id: Id)
    | AckFailed(id: Id)
    | Restarted

  // `unread` is inbox/<user>/new; `log` is history.
  datatype Gateway = Gateway(items: seq<Id>, inflight: set<Id>, held: map<Id, int>, unread: set<Id>, seen: set<Id>,
                             scanner: Scanner, sender: Sender, log: seq<Event>)

  datatype Step =
    | Arrive(id: Id)                       // Ids are not reused
    | ReadElsewhere(id: Id)
    | List(ids: seq<Id>)
    | CheckInflight(now: int)
    | Lstat
    | Enqueue
    | AckOnly(ok: bool)                    // a type that is not relayed
    | RelayFails
    | EndScan
    | Pop
    | PushFront
    | Post(ok: bool, until: int)
    | Ack(ok: bool)
    | Done
    | Restart

  predicate Possible(g: Gateway, s: Step) {
    match s
    case Arrive(id) => id !in g.seen
    case ReadElsewhere(id) => true
    case List(ids) => g.scanner.SIdle? && forall id :: id in ids ==> id in g.seen
    case CheckInflight(_) => g.scanner.SListed? && g.scanner.todo != []
    case Lstat => g.scanner.SChecked?
    case Enqueue => g.scanner.SRelaying?
    case AckOnly(_) => g.scanner.SRelaying?
    case RelayFails => g.scanner.SRelaying?
    case EndScan => g.scanner.SListed? && g.scanner.todo == []
    case Pop => g.sender.Idle? && g.items != []
    case PushFront => g.sender.Popped?
    case Post(_, _) => g.sender.Popped?
    case Ack(_) => g.sender.Posted?
    case Done => g.sender.Closing?
    case Restart => true
  }

  // outQueue.isInflight: the answer, and the held entries after it.
  function IsInflight(g: Gateway, id: Id, now: int): (bool, map<Id, int>) {
    if id in g.held && now < g.held[id] then (true, g.held)
    else (id in g.inflight, g.held - {id})
  }

  function After(g: Gateway, s: Step): Gateway
    requires Possible(g, s)
  {
    match s
    case Arrive(id) => g.(unread := g.unread + {id}, seen := g.seen + {id})
    case ReadElsewhere(id) => g.(unread := g.unread - {id})
    case List(ids) => g.(scanner := SListed(ids))
    case CheckInflight(now) =>
      var id, rest := g.scanner.todo[0], g.scanner.todo[1..];
      var (busy, held) := IsInflight(g, id, now);
      g.(held := held, scanner := if busy then SListed(rest) else SChecked(id, rest))
    case Lstat =>
      g.(scanner := if g.scanner.id in g.unread then SRelaying(g.scanner.id, g.scanner.todo) else SListed(g.scanner.todo))
    case Enqueue =>
      var id := g.scanner.id;
      g.(items := g.items + [id], inflight := g.inflight + {id}, scanner := SListed(g.scanner.todo), log := g.log + [Enqueued(id)])
    case AckOnly(ok) =>
      g.(unread := if ok then g.unread - {g.scanner.id} else g.unread, scanner := SListed(g.scanner.todo))
    case RelayFails => g.(scanner := SListed(g.scanner.todo))
    case EndScan => g.(scanner := SIdle)
    case Pop => g.(items := g.items[1..], sender := Popped(g.items[0]))
    case PushFront => g.(items := [g.sender.id] + g.items, sender := Idle)
    case Post(ok, until) =>
      var id := g.sender.id;
      if ok then g.(sender := Posted(id), log := g.log + [PostDone(id)])
      else g.(held := g.held[id := until], sender := Closing(id), log := g.log + [PostFailed(id)])
    case Ack(ok) =>
      var id := g.sender.id;
      g.(unread := if ok then g.unread - {id} else g.unread, sender := Closing(id),
         log := g.log + [if ok then AckDone(id) else AckFailed(id)])
    case Done => g.(inflight := g.inflight - {g.sender.id}, sender := Idle)
    case Restart => g.(items := [], inflight := {}, held := map[], scanner := SIdle, sender := Idle, log := g.log + [Restarted])
  }

  predicate Initial(g: Gateway) {
    g.items == [] && g.inflight == {} && g.held == map[] && g.unread <= g.seen && g.scanner == SIdle && g.sender == Idle && g.log == []
  }

  // ------------------------------------------------------ what is said of one Id

  // Free: it may be enqueued. Settled: posted and acknowledged, never again.
  datatype Phase = Free | Queued | Shown | Settled | Wrong

  function Next(p: Phase, e: Event, id: Id): Phase {
    match e
    case Restarted => if p == Queued || p == Shown then Free else p
    case Enqueued(i) => if i != id then p else if p == Free then Queued else Wrong
    case PostDone(i) => if i != id then p else if p == Queued then Shown else Wrong
    case PostFailed(i) => if i != id then p else if p == Queued then Free else Wrong
    case AckDone(i) => if i != id then p else if p == Shown then Settled else Wrong
    case AckFailed(i) => if i != id then p else if p == Shown then Free else Wrong
  }

  // The history of one Id, event by event.
  function PhaseOf(log: seq<Event>, id: Id): Phase {
    if log == [] then Free else Next(PhaseOf(log[..|log| - 1], id), log[|log| - 1], id)
  }

  predicate AtSender(g: Gateway, id: Id) { !g.sender.Idle? && g.sender.id == id }

  predicate InHand(g: Gateway, id: Id) { id in g.items || (g.sender.Popped? && g.sender.id == id) }

  predicate Distinct(s: seq<Id>) { forall i, j :: 0 <= i < j < |s| ==> s[i] != s[j] }

  // The Ids the scanner holds.
  predicate Scanning(s: Scanner, id: Id) {
    match s
    case SIdle => false
    case SListed(todo) => id in todo
    case SChecked(i, todo) => id == i || id in todo
    case SRelaying(i, todo) => id == i || id in todo
  }

  // Every Id anywhere did arrive.
  ghost predicate Known(g: Gateway) {
    && g.unread <= g.seen
    && (forall id :: Scanning(g.scanner, id) ==> id in g.seen)
    && (forall id :: id in g.items ==> id in g.seen)
    && (!g.sender.Idle? ==> g.sender.id in g.seen)
  }

  // The queue and the item in hand are what is in flight, each Id once.
  predicate Once(g: Gateway) {
    && Distinct(g.items)
    && (!g.sender.Idle? ==> g.sender.id !in g.items && g.sender.id in g.inflight)
    && (forall id :: id in g.items ==> id in g.inflight)
    && (forall id :: id in g.inflight ==> id in g.items || AtSender(g, id))
    && (g.scanner.SChecked? || g.scanner.SRelaying? ==> g.scanner.id !in g.inflight)
  }

  predicate PhaseFits(g: Gateway, p: Phase, id: Id) {
    && p != Wrong
    && (p == Queued <==> InHand(g, id))
    && (p == Shown <==> g.sender == Posted(id))
    && (p == Settled ==> id !in g.unread && id in g.seen)
    && (g.scanner.SRelaying? && g.scanner.id == id ==> p == Free)
  }

  ghost predicate Inv(g: Gateway) {
    Known(g) && Once(g) && forall id :: PhaseFits(g, PhaseOf(g.log, id), id)
  }

  lemma LogMore(log: seq<Event>, e: Event, id: Id)
    ensures PhaseOf(log + [e], id) == Next(PhaseOf(log, id), e, id)
  {
    assert (log + [e])[..|log| + 1 - 1] == log;
  }

  predicate OfScanner(s: Step) {
    s.List? || s.CheckInflight? || s.Lstat? || s.Enqueue? || s.AckOnly? || s.RelayFails? || s.EndScan?
  }

  predicate OfSender(s: Step) { s.Pop? || s.PushFront? || s.Post? || s.Ack? || s.Done? }

  lemma KnownKept(g: Gateway, s: Step)
    requires Known(g) && Possible(g, s)
    ensures Known(After(g, s))
  {
  }

  lemma OnceScanner(g: Gateway, s: Step)
    requires Once(g) && Possible(g, s) && OfScanner(s)
    ensures Once(After(g, s))
  {
  }

  lemma OnceSender(g: Gateway, s: Step)
    requires Once(g) && Possible(g, s) && !OfScanner(s)
    ensures Once(After(g, s))
  {
  }

  // What a step does to the history of one Id.
  function Then(g: Gateway, s: Step, p: Phase, id: Id): Phase
    requires Possible(g, s)
  {
    var t := After(g, s);
    if |t.log| > |g.log| then Next(p, t.log[|g.log|], id) else p
  }

  lemma ThenIsPhase(g: Gateway, s: Step, id: Id)
    requires Possible(g, s)
    ensures PhaseOf(After(g, s).log, id) == Then(g, s, PhaseOf(g.log, id), id)
  {
    var t := After(g, s);
    if |t.log| > |g.log| {
      assert t.log == g.log + [t.log[|g.log|]];
      LogMore(g.log, t.log[|g.log|], id);
    } else {
      assert t.log == g.log;
    }
  }

  lemma ScannerFits(g: Gateway, s: Step, p: Phase, id: Id)
    requires Known(g) && Once(g) && PhaseFits(g, p, id) && Possible(g, s) && OfScanner(s)
    ensures PhaseFits(After(g, s), Then(g, s, p, id), id)
  {
  }

  lemma SenderFits(g: Gateway, s: Step, p: Phase, id: Id)
    requires Known(g) && Once(g) && PhaseFits(g, p, id) && Possible(g, s) && OfSender(s)
    ensures PhaseFits(After(g, s), Then(g, s, p, id), id)
  {
  }

  lemma OutsideFits(g: Gateway, s: Step, p: Phase, id: Id)
    requires Known(g) && Once(g) && PhaseFits(g, p, id) && Possible(g, s) && !OfSender(s) && !OfScanner(s)
    ensures PhaseFits(After(g, s), Then(g, s, p, id), id)
  {
  }

  lemma StepKept(g: Gateway, s: Step)
    requires Inv(g) && Possible(g, s)
    ensures Inv(After(g, s))
  {
    KnownKept(g, s);
    if OfScanner(s) {
      OnceScanner(g, s);
    } else {
      OnceSender(g, s);
    }
    forall id
      ensures PhaseFits(After(g, s), PhaseOf(After(g, s).log, id), id)
    {
      var p := PhaseOf(g.log, id);
      assert PhaseFits(g, p, id);
      ThenIsPhase(g, s, id);
      if OfScanner(s) {
        ScannerFits(g, s, p, id);
      } else if OfSender(s) {
        SenderFits(g, s, p, id);
      } else {
        OutsideFits(g, s, p, id);
      }
    }
  }

  ghost predicate Leads(g: Gateway, steps: seq<Step>, h: Gateway)
    decreases |steps|
  {
    if steps == [] then g == h
    else Possible(g, steps[0]) && Leads(After(g, steps[0]), steps[1..], h)
  }

  lemma {:induction false} RunKept(g: Gateway, steps: seq<Step>, h: Gateway)
    requires Inv(g) && Leads(g, steps, h)
    ensures Inv(h)
    decreases |steps|
  {
    if steps != [] {
      StepKept(g, steps[0]);
      RunKept(After(g, steps[0]), steps[1..], h);
    }
  }

  // In every interleaving: an Id is queued or being posted at most once at a time;
  // it is acknowledged only after its post succeeded; and it is enqueued again only
  // if its post or its acknowledgement failed, or the gateway was restarted.
  lemma PostedOnce(g: Gateway, steps: seq<Step>, h: Gateway, id: Id)
    requires Initial(g) && Leads(g, steps, h)
    ensures Distinct(h.items) && (!h.sender.Idle? ==> h.sender.id !in h.items)
    ensures PhaseOf(h.log, id) != Wrong
    ensures PhaseOf(h.log, id) == Settled ==> id !in h.unread && !InHand(h, id)
  {
    RunKept(g, steps, h);
    assert PhaseFits(h, PhaseOf(h.log, id), id);
  }

  // --------------------------------------------------- every letter gets its post

  // Busy is what is queued or being posted, and what failed and is still held; a hold
  // that has run out is forgotten.
  lemma InflightExact(g: Gateway, id: Id, now: int)
    ensures var (busy, held) := IsInflight(g, id, now);
      && (busy <==> id in g.inflight || (id in g.held && now < g.held[id]))
      && (forall i :: i in held <==> i in g.held && (i != id || now < g.held[id])) && forall i :: i in held ==> held[i] == g.held[i]
  {
  }

  // The scan relays a listed Id if and only if it is not busy and still unread.
  lemma ScanRelaysExact(g: Gateway, now: int)
    requires Possible(g, CheckInflight(now))
    ensures var id, rest, h := g.scanner.todo[0], g.scanner.todo[1..], After(g, CheckInflight(now));
      var busy := id in g.inflight || (id in g.held && now < g.held[id]);
      if busy then h.scanner == SListed(rest)
      else Possible(h, Lstat) && After(h, Lstat).scanner == if id in g.unread then SRelaying(id, rest) else SListed(rest)
  {
    InflightExact(g, g.scanner.todo[0], now);
  }

  lemma LeadsFirst(g: Gateway, s: Step, h: Gateway, steps: seq<Step>, z: Gateway) returns (all: seq<Step>)
    requires Possible(g, s) && After(g, s) == h && Leads(h, steps, z)
    ensures Leads(g, all, z)
  {
    all := [s] + steps;
    assert all[1..] == steps;
  }

  predicate Resting(g: Gateway) { g.scanner == SIdle && g.sender == Idle && g.items == [] && g.inflight == {} }

  // The steps by which one unread Id is listed, relayed and taken up by the sender.
  lemma TakenUp(g: Gateway, id: Id, now: int) returns (steps: seq<Step>, h: Gateway)
    requires Resting(g) && g.unread <= g.seen && id in g.unread && (id in g.held ==> now >= g.held[id])
    ensures Leads(g, steps, h)
    ensures h == g.(inflight := {id}, held := g.held - {id}, sender := Popped(id), log := g.log + [Enqueued(id)])
  {
    var none: seq<Id> := [];
    assert [id][1..] == none && none + [id] == [id] && {} + {id} == {id};
    var a := g.(scanner := SListed([id]));
    var b := g.(scanner := SChecked(id, none), held := g.held - {id});
    var c := b.(scanner := SRelaying(id, none));
    var d := b.(scanner := SListed(none), items := [id], inflight := {id}, log := g.log + [Enqueued(id)]);
    var e := d.(scanner := SIdle);
    h := e.(items := none, sender := Popped(id));
    steps := LeadsFirst(e, Pop, h, [], h);
    steps := LeadsFirst(d, EndScan, e, steps, h);
    steps := LeadsFirst(c, Enqueue, d, steps, h);
    Looks(g, a, b, c, id, now);
    steps := LeadsFirst(b, Lstat, c, steps, h);
    steps := LeadsFirst(a, CheckInflight(now), b, steps, h);
    steps := LeadsFirst(g, List([id]), a, steps, h);
  }

  // Up to the decision to relay.
  lemma Looks(g: Gateway, a: Gateway, b: Gateway, c: Gateway, id: Id, now: int)
    requires Resting(g) && g.unread <= g.seen && id in g.unread && (id in g.held ==> now >= g.held[id])
    requires a == g.(scanner := SListed([id])) && b == g.(scanner := SChecked(id, []), held := g.held - {id})
    requires c == b.(scanner := SRelaying(id, []))
    ensures Possible(g, List([id])) && After(g, List([id])) == a
    ensures Possible(a, CheckInflight(now)) && After(a, CheckInflight(now)) == b && Possible(b, Lstat) && After(b, Lstat) == c
  {
    assert [id][1..] == [];
  }

  // An unread letter that no hold is on can be posted and acknowledged: it is then
  // read, its history is queue, post, acknowledgement, and the gateway rests.
  lemma LetterIsPosted(g: Gateway, id: Id, now: int) returns (steps: seq<Step>, more: seq<Step>, h: Gateway, z: Gateway)
    requires Resting(g) && g.unread <= g.seen && id in g.unread && (id in g.held ==> now >= g.held[id])
    ensures Leads(g, steps, h) && Leads(h, more, z) && Resting(z)
    ensures z.unread == g.unread - {id} && z.held == g.held - {id} && z.log == g.log + [Enqueued(id), PostDone(id), AckDone(id)]
  {
    steps, h := TakenUp(g, id, now);
    var a := After(h, Post(true, now));
    var b := After(a, Ack(true));
    z := After(b, Done);
    more := LeadsFirst(b, Done, z, [], z);
    more := LeadsFirst(a, Ack(true), b, more, z);
    more := LeadsFirst(h, Post(true, now), a, more, z);
    assert z.inflight == {};
  }

  // A post that fails is held until its time, and then, and not before, can be tried
  // again: the letter stays unread, and the scan finds it busy exactly until then.
  lemma FailedIsRetried(g: Gateway, id: Id, now: int, until: int, later: int) returns (steps: seq<Step>, more: seq<Step>, h: Gateway, z: Gateway)
    requires Resting(g) && g.unread <= g.seen && id in g.unread && (id in g.held ==> now >= g.held[id])
    ensures Leads(g, steps, h) && Leads(h, more, z) && Resting(z)
    ensures z.unread == g.unread && z.log == g.log + [Enqueued(id), PostFailed(id)] && id in z.held && z.held[id] == until
    ensures IsInflight(z, id, later).0 <==> later < until
  {
    steps, h := TakenUp(g, id, now);
    var a := After(h, Post(false, until));
    z := After(a, Done);
    more := LeadsFirst(a, Done, z, [], z);
    more := LeadsFirst(h, Post(false, until), a, more, z);
    assert z.inflight == {};
    InflightExact(z, id, later);
  }

  // ------------------------------------------------------ the imperative form

  // The queue, the inbox it serves, and where the two loops stand.
  class OutQueue {
    var items: seq<Id>
    var inflight: set<Id>
    var held: map<Id, int>
    var unread: set<Id>
    var seen: set<Id>
    var scanner: Scanner            // the locals of scanInbox
    var sender: Sender              // and of sendLoop
    ghost var log: seq<Event>

    ghost function Abs(): Gateway
      reads this
    {
      Gateway(items, inflight, held, unread, seen, scanner, sender, log)
    }

    constructor (unread: set<Id>)
      ensures Initial(Abs()) && this.unread == unread
    {
      items, inflight, held, this.unread, seen := [], {}, map[], unread, unread;
      scanner, sender, log := SIdle, Idle, [];
    }

    method Enqueue(id: Id)
      requires scanner.SRelaying? && scanner.id == id
      modifies this
      ensures Abs() == After(old(Abs()), Step.Enqueue)
    {
      items := items + [id];
      inflight := inflight + {id};
      scanner, log := SListed(scanner.todo), log + [Enqueued(id)];
    }

    method PopItem() returns (id: Id, ok: bool)
      requires sender.Idle?
      modifies this
      ensures ok <==> old(items) != []
      ensures if ok then Abs() == After(old(Abs()), Pop) && id == old(items)[0] else Abs() == old(Abs())
    {
      id, ok := "", false;
      if |items| == 0 {
        return;
      }
      id, ok := items[0], true;
      items := items[1..];
      sender := Popped(id);
    }

    method PutBack(id: Id)
      requires sender == Popped(id)
      modifies this
      ensures Abs() == After(old(Abs()), PushFront)
    {
      items := [id] + items;
      sender := Idle;
    }

    method IsBusy(id: Id, now: int) returns (busy: bool)
      modifies this`held
      ensures (busy, held) == IsInflight(old(Abs()), id, now)
    {
      if id in held {
        if now < held[id] {
          return true;
        }
        held := held - {id};
      }
      busy := id in inflight;
      assert id !in old(held) ==> held - {id} == held;
    }

    // One listed message, up to the decision to relay it.
    method ScanOne(now: int) returns (relay: bool)
      requires scanner.SListed? && scanner.todo != []
      modifies this
      ensures var g := After(old(Abs()), CheckInflight(now));
        if g.scanner.SChecked? then Abs() == After(g, Lstat) && (relay <==> scanner.SRelaying?) else Abs() == g && !relay
    {
      var id, rest := scanner.todo[0], scanner.todo[1..];
      var busy := IsBusy(id, now);
      if busy {
        scanner := SListed(rest);
        return false;
      }
      relay := id in unread;
      scanner := if relay then SRelaying(id, rest) else SListed(rest);
    }

    // deliver: post, then acknowledge, then let the Id go.
    method Deliver(id: Id, posted: bool, until: int, acked: bool)
      requires sender == Popped(id)
      modifies this
      ensures var g := After(old(Abs()), Post(posted, until));
        Abs() == After(if posted then After(g, Ack(acked)) else g, Done)
    {
      if !posted {
        held := held[id := until];
        inflight := inflight - {id};
        sender, log := Idle, log + [PostFailed(id)];
        return;
      }
      if acked {
        unread := unread - {id};
      }
      inflight := inflight - {id};
      sender, log := Idle, log + [PostDone(id)] + [if acked then AckDone(id) else AckFailed(id)];
    }
  }
}
