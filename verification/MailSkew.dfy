/** The slack the retention arithmetic leaves for clocks, to the second. */
module MailSkew {
  import opened MailModel
  import opened MailSafety

  lemma {:induction false} LeadsExtends(s: Net, es: seq<Event>, t: Net, e: Event, skew: int)
    requires Leads(s, es, t, skew) && Possible(t, e, skew)
    ensures Leads(s, es + [e], After(t, e, skew), skew)
    decreases |es|
  {
    if es != [] {
      LeadsExtends(After(s, es[0], skew), es[1..], t, e, skew);
      assert (es + [e])[1..] == es[1..] + [e];
    } else {
      assert [] + [e] == [e];
      assert Leads(After(t, e, skew), [], After(t, e, skew), skew);
    }
  }

  lemma ReachableStep(t: Net, e: Event, skew: int)
    requires Reachable(t, skew) && Possible(t, e, skew)
    ensures Reachable(After(t, e, skew), skew)
  {
    var s, es :| Initial(s) && Leads(s, es, t, skew);
    LeadsExtends(s, es, t, e, skew);
  }

  // ------------------------------------------------- what one node can do alone

  // n' is one action of n, one that prepares no message.
  ghost predicate Goes(n: NodeState, a: Action, n': NodeState) {
    Enabled(n, a) && Prepared(a) == {} && Apply(n, a) == n'
  }

  ghost predicate Path(n: NodeState, acts: seq<Action>, n': NodeState)
    decreases |acts|
  {
    if acts == [] then n == n'
    else exists mid :: Goes(n, acts[0], mid) && Path(mid, acts[1..], n')
  }

  ghost predicate CanBecome(n: NodeState, n': NodeState) {
    exists acts :: Path(n, acts, n')
  }

  lemma {:induction false} PathExtends(n: NodeState, acts: seq<Action>, mid: NodeState, a: Action, n': NodeState)
    requires Path(n, acts, mid) && Goes(mid, a, n')
    ensures Path(n, acts + [a], n')
    decreases |acts|
  {
    if acts == [] {
      assert Path(n', [], n');
      assert ([] + [a])[1..] == [];
    } else {
      var next :| Goes(n, acts[0], next) && Path(next, acts[1..], mid);
      PathExtends(next, acts[1..], mid, a, n');
      assert (acts + [a])[1..] == acts[1..] + [a];
    }
  }

  lemma Then(n: NodeState, mid: NodeState, a: Action, n': NodeState)
    requires CanBecome(n, mid) && Goes(mid, a, n')
    ensures CanBecome(n, n')
  {
    var acts :| Path(n, acts, mid);
    PathExtends(n, acts, mid, a, n');
  }

  lemma Delivers(n: NodeState, mid: NodeState, d: DeliverStep, n': NodeState)
    requires CanBecome(n, mid) && CanDeliver(mid, d) && Deliver(mid, d) == n'
    ensures CanBecome(n, n')
  {
    Then(n, mid, Delivery(d), n');
  }

  lemma Retains(n: NodeState, mid: NodeState, r: RetainStep, n': NodeState)
    requires CanBecome(n, mid) && CanRetain(mid, r) && Retain(mid, r) == n'
    ensures CanBecome(n, n')
  {
    Then(n, mid, Retention(r), n');
  }

  lemma Starts(n: NodeState)
    ensures CanBecome(n, n)
  {
    assert Path(n, [], n);
  }

  lemma {:induction false} PathInNet(s: Net, k: Node, n: NodeState, acts: seq<Action>, n': NodeState, skew: int) returns (t: Net)
    requires Reachable(s, skew) && k in s.nodes && s.nodes[k] == n && Path(n, acts, n')
    ensures Reachable(t, skew) && t.nodes == s.nodes[k := n'] && s.ever <= t.ever
    decreases |acts|
  {
    if acts == [] {
      t := s;
    } else {
      var mid :| Goes(n, acts[0], mid) && Path(mid, acts[1..], n');
      ReachableStep(s, Local(k, acts[0]), skew);
      t := PathInNet(After(s, Local(k, acts[0]), skew), k, mid, acts[1..], n', skew);
    }
  }

  lemma BecomesInNet(s: Net, k: Node, n': NodeState, skew: int) returns (t: Net)
    requires Reachable(s, skew) && k in s.nodes && CanBecome(s.nodes[k], n')
    ensures Reachable(t, skew) && t.nodes == s.nodes[k := n'] && s.ever <= t.ever
  {
    var acts :| Path(s.nodes[k], acts, n');
    t := PathInNet(s, k, s.nodes[k], acts, n', skew);
  }

  // -------------------------------------------------------- the failing run

  // Installs m in the inbox, up to the crash-sensitive point.
  lemma Installs(n: NodeState, m: Message)
    requires n.pc == Idle && n.name == m.dst && OwnMail(n) == {m.id} && Mail(m) in n.spool && n.clock < m.expires
    requires !InLog(n.box.log, m.id) && !InInbox(n.box, m.id)
    ensures CanBecome(n, n.(pc := Installed({}, m, n.clock),
                            box := n.box.(new_ := n.box.new_ + {m.id}, installs := n.box.installs + [m.id])))
  {
    Starts(n);
    var n1 := n.(pc := Sweep({m.id}));
    Delivers(n, n, Begin, n1);
    var n2 := n.(pc := Dated({}, m, n.clock));
    assert {m.id} - {m.id} == {};
    Delivers(n, n1, ReadClock(m), n2);
    Delivers(n, n2, Install, n.(pc := Installed({}, m, n.clock),
      box := n.box.(new_ := n.box.new_ + {m.id}, installs := n.box.installs + [m.id])));
  }

  // From there to the end of the cycle.
  lemma Finishes(n: NodeState, m: Message, now: int)
    requires n.pc == Installed({}, m, now) && now <= n.clock
    ensures CanBecome(n, n.(pc := Idle, spool := n.spool + {Ack(m.id, m.src)} - {Mail(m)},
                            box := n.box.(log := n.box.log + [LogLine(n.clock, m.id)])))
  {
    Starts(n);
    var n1 := n.(pc := Logged({}, m), box := n.box.(log := n.box.log + [LogLine(n.clock, m.id)]));
    Delivers(n, n, Record(n.clock), n1);
    var n2 := n1.(pc := Acked({}, m), spool := n.spool + {Ack(m.id, m.src)});
    Delivers(n, n1, QueueAck, n2);
    var n3 := n2.(pc := Sweep({}), spool := n2.spool - {Mail(m)});
    Delivers(n, n2, Consume, n3);
    Delivers(n, n3, EndSweep, n3.(pc := Tail));
    Retains(n, n3.(pc := Tail), EndCycle, n3.(pc := Idle));
  }

  // A quiet cycle that prunes the read message and its log line.
  lemma Forgets(n: NodeState, line: LogLine)
    requires n.pc == Idle && OwnMail(n) == {} && n.box.log == [line] && line.at < n.clock - LOG_KEEP
    requires n.box.cur == {line.id}
    ensures CanBecome(n, n.(box := n.box.(log := [], cur := {})))
  {
    Starts(n);
    Delivers(n, n, Begin, n.(pc := Sweep({})));
    Delivers(n, n.(pc := Sweep({})), EndSweep, n.(pc := Tail));
    var n1 := n.(pc := Tail, box := n.box.(cur := {}));
    Retains(n, n.(pc := Tail), PruneCur(line.id), n1);
    assert [line][1..] == [] && Kept([], n.clock - LOG_KEEP) == [];
    Retains(n, n1, PruneLog(n.clock), n1.(box := n1.box.(log := [])));
    Retains(n, n1.(box := n1.box.(log := [])), EndCycle, n.(box := n.box.(log := [], cur := {})));
  }

  const LATE := MAX_SKEW + 1
  const LETTER := Message(Id(LATE, 1, 1, "ann@a"), "a", "b", LATE, LATE + TTL_CAP)

  // The letter is spooled and reaches a recipient whose clock is LATE behind.
  lemma Posted(skew: int) returns (t: Net)
    requires skew >= LATE
    ensures Reachable(t, skew) && "b" in t.nodes && Mail(LETTER) in t.ever
    ensures t.nodes["b"] == NewNode("b", 0)
  {
    var a := NewNode("a", LATE);
    var s := Net(map["a" := a, "b" := NewNode("b", 0)], {}, map[]);
    assert Initial(s) && Leads(s, [], s, skew);
    ReachableStep(s, Local("a", Post(LETTER)), skew);
    t := After(s, Local("a", Post(LETTER)), skew);
    var a1 := Enqueue(a, LETTER);
    ReachableStep(t, Local("a", Materialise(LETTER.id)), skew);
    t := After(t, Local("a", Materialise(LETTER.id)), skew);
  }

  lemma Arrives(s: Net, k: Node, skew: int) returns (t: Net)
    requires Reachable(s, skew) && k in s.nodes && Mail(LETTER) in s.ever
    ensures Reachable(t, skew) && s.ever <= t.ever
    ensures t.nodes == s.nodes[k := s.nodes[k].(spool := s.nodes[k].spool + {Mail(LETTER)})]
  {
    ReachableStep(s, Arrive(k, Mail(LETTER)), skew);
    t := After(s, Arrive(k, Mail(LETTER)), skew);
  }

  lemma InstallsIn(s: Net, m: Message, skew: int) returns (t: Net)
    requires Reachable(s, skew) && m.dst in s.nodes && s.nodes[m.dst].pc == Idle && s.nodes[m.dst].name == m.dst
    requires OwnMail(s.nodes[m.dst]) == {m.id} && Mail(m) in s.nodes[m.dst].spool && s.nodes[m.dst].clock < m.expires
    requires !InLog(s.nodes[m.dst].box.log, m.id) && !InInbox(s.nodes[m.dst].box, m.id)
    ensures Reachable(t, skew) && s.ever <= t.ever && m.dst in t.nodes
    ensures var n := s.nodes[m.dst]; t.nodes[m.dst] == n.(pc := Installed({}, m, n.clock),
      box := n.box.(new_ := n.box.new_ + {m.id}, installs := n.box.installs + [m.id]))
  {
    var n := s.nodes[m.dst];
    Installs(n, m);
    t := BecomesInNet(s, m.dst, n.(pc := Installed({}, m, n.clock),
      box := n.box.(new_ := n.box.new_ + {m.id}, installs := n.box.installs + [m.id])), skew);
  }

  // Records the new letter, reads it, and lets time pass.
  lemma DrainsIn(s: Net, k: Node, id: Id, skew: int) returns (t: Net)
    requires Reachable(s, skew) && k in s.nodes && s.nodes[k].pc == Idle
    requires var b := s.nodes[k].box; b.new_ == {id} && b.cur == {}
    ensures Reachable(t, skew) && s.ever <= t.ever
    ensures t.nodes == s.nodes[k := s.nodes[k].(box := s.nodes[k].box.(new_ := {}, cur := {id}))]
  {
    var n := s.nodes[k];
    var n' := n.(box := n.box.(new_ := {}, cur := {id}));
    assert {id} - {id} == {} && {} + {id} == {id};
    Starts(n);
    Then(n, n, Drain(id), n');
    t := BecomesInNet(s, k, n', skew);
  }

  lemma RecordsIn(s: Net, m: Message, later: int, skew: int) returns (t: Net)
    requires Reachable(s, skew) && m.dst in s.nodes
    requires var n := s.nodes[m.dst]; n.pc == Installed({}, m, n.clock) && n.clock <= later && n.box == Inbox({m.id}, {}, [], [m.id])
    ensures Reachable(t, skew) && s.ever <= t.ever && m.dst in t.nodes
    ensures var n := s.nodes[m.dst]; t.nodes[m.dst] == n.(pc := Idle, clock := later, spool := n.spool + {Ack(m.id, m.src)} - {Mail(m)},
      box := Inbox({}, {m.id}, [LogLine(n.clock, m.id)], [m.id]))
  {
    var n, k, id := s.nodes[m.dst], m.dst, m.id;
    Finishes(n, m, n.clock);
    var n1 := n.(pc := Idle, spool := n.spool + {Ack(id, m.src)} - {Mail(m)}, box := n.box.(log := [LogLine(n.clock, id)]));
    assert n.box.log + [LogLine(n.clock, id)] == [LogLine(n.clock, id)];
    t := BecomesInNet(s, k, n1, skew);
    t := DrainsIn(t, k, id, skew);
    ReachableStep(t, Tick(k, later), skew);
    t := After(t, Tick(k, later), skew);
  }

  lemma ForgetsIn(s: Net, k: Node, line: LogLine, skew: int) returns (t: Net)
    requires Reachable(s, skew) && k in s.nodes
    requires var n := s.nodes[k]; n.pc == Idle && OwnMail(n) == {} && n.box.log == [line] && line.at < n.clock - LOG_KEEP && n.box.cur == {line.id}
    ensures Reachable(t, skew) && s.ever <= t.ever && k in t.nodes
    ensures t.nodes[k] == s.nodes[k].(box := s.nodes[k].box.(log := [], cur := {}))
  {
    Forgets(s.nodes[k], line);
    t := BecomesInNet(s, k, s.nodes[k].(box := s.nodes[k].box.(log := [], cur := {})), skew);
  }

  // It is installed, recorded, read, and forgotten while the copy is still valid.
  lemma Forgotten(skew: int) returns (t: Net)
    requires skew >= LATE
    ensures Reachable(t, skew) && "b" in t.nodes && Mail(LETTER) in t.ever
    ensures var b := t.nodes["b"]; b.pc == Idle && b.name == "b" && b.clock == LOG_KEEP + 1 && b.spool == {Ack(LETTER.id, "a")}
    ensures t.nodes["b"].box == Inbox({}, {}, [], [LETTER.id])
  {
    var id := LETTER.id;
    t := Posted(skew);
    t := Arrives(t, "b", skew);
    assert t.nodes["b"].spool == {Mail(LETTER)};
    assert OwnMail(t.nodes["b"]) == {id} by { assert Mail(LETTER).m.id == id; }
    t := InstallsIn(t, LETTER, skew);
    assert t.nodes["b"].box == Inbox({id}, {}, [], [id]) by { assert [] + [id] == [id] && {} + {id} == {id}; }
    t := RecordsIn(t, LETTER, LOG_KEEP + 1, skew);
    assert t.nodes["b"].spool == {Ack(id, "a")};
    assert OwnMail(t.nodes["b"]) == {};
    t := ForgetsIn(t, "b", LogLine(0, id), skew);
  }

  // One second more than the slack, and the late copy is installed again.
  lemma SecondInstall(skew: int) returns (t: Net)
    requires skew > MAX_SKEW
    ensures Reachable(t, skew) && !AtMostOnce(t)
  {
    var id := LETTER.id;
    t := Forgotten(skew);
    t := Arrives(t, "b", skew);
    assert OwnMail(t.nodes["b"]) == {id} by { assert Mail(LETTER).m.id == id; }
    t := InstallsIn(t, LETTER, skew);
    var ids := t.nodes["b"].box.installs;
    assert ids == [id, id] && ids[0] == ids[1];
  }

  // At-most-once delivery holds in every run exactly when a recipient's clock is
  // never more than MAX_SKEW seconds behind the sender's.
  lemma SlackIsExact(skew: int)
    ensures (forall t :: Reachable(t, skew) ==> AtMostOnce(t)) <==> skew <= MAX_SKEW
    ensures MAX_SKEW == 86401
  {
    if skew <= MAX_SKEW {
      forall t | Reachable(t, skew)
        ensures AtMostOnce(t)
      {
        InstalledAtMostOnce(t, skew);
      }
    } else {
      var t := SecondInstall(skew);
    }
  }
}
