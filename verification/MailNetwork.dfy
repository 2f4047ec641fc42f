/**
  The routines of one node as part of the network: what MailNode records of a
  routine is a run of the whole transition system, and what the routines ask of the
  node's directories holds in every reachable state.
*/
module MailNetwork {
  import opened MailModel
  import opened MailNode
  import opened MailSafety
  import opened MailSender
  import opened MailSkew

  function PreparedBy(to: Moment): set<Message> {
    match to.via case None => {} case Some(a) => Prepared(a)
  }

  // Each message the routine prepares is new, and its addressee's clock is not too
  // far behind.
  predicate Welcome(s: Net, k: Node, path: seq<Moment>, skew: int)
    requires k in s.nodes && path != []
  {
    && (forall i, m :: 0 < i < |path| && m in PreparedBy(path[i]) ==> Fresh(s, m, skew))
    && (forall i, j, l, m :: 0 < i < j < |path| && l in PreparedBy(path[i]) && m in PreparedBy(path[j]) ==> l.id != m.id)
  }

  lemma SentByStep(s: Net, e: Event, skew: int, m: Message)
    requires Possible(s, e, skew) && m.id !in s.sent
    requires e.Local? ==> forall l :: l in Prepared(e.a) ==> l.id != m.id
    ensures m.id !in After(s, e, skew).sent
  {
    if e.Local? {
      match e.a
      case Post(l) => assert l in Prepared(e.a);
      case KeyedAction(q) => assert q.Bind? ==> q.m in Prepared(e.a);
      case _ =>
    }
  }

  lemma ClockByStep(n: NodeState, a: Action)
    requires Enabled(n, a)
    ensures Apply(n, a).clock == n.clock
  {
  }

  function EventOf(k: Node, to: Moment): Event {
    match to.via case None => Tick(k, to.n.clock) case Some(a) => Local(k, a)
  }

  lemma Keeps(s: Net, k: Node, path: seq<Moment>, skew: int)
    requires k in s.nodes && |path| > 1 && Run(path) && s.nodes[k] == path[0].n && Welcome(s, k, path, skew)
    ensures Possible(s, EventOf(k, path[1]), skew)
    ensures var t := After(s, EventOf(k, path[1]), skew);
      t.nodes == s.nodes[k := path[1].n] && s.ever <= t.ever && Run(path[1..]) && Welcome(t, k, path[1..], skew)
  {
    var e := EventOf(k, path[1]);
    assert Follows(path[0].n, path[1]);
    assert forall m :: m in PreparedBy(path[1]) ==> Fresh(s, m, skew);
    var t, rest := After(s, e, skew), path[1..];
    forall i | 0 < i < |rest|
      ensures Follows(rest[i - 1].n, rest[i])
    {
      assert Follows(path[i].n, path[i + 1]);
    }
    if e.Local? {
      ClockByStep(s.nodes[k], e.a);
    }
    forall i, m | 0 < i < |rest| && m in PreparedBy(rest[i])
      ensures Fresh(t, m, skew)
    {
      assert m in PreparedBy(path[i + 1]) && Fresh(s, m, skew);
      SentByStep(s, e, skew, m);
    }
    forall i, j, l, m | 0 < i < j < |rest| && l in PreparedBy(rest[i]) && m in PreparedBy(rest[j])
      ensures l.id != m.id
    {
      assert l in PreparedBy(path[i + 1]) && m in PreparedBy(path[j + 1]);
    }
  }

  lemma StepInNetwork(s: Net, k: Node, path: seq<Moment>, skew: int) returns (t: Net)
    requires Reachable(s, skew) && k in s.nodes && |path| > 1 && Run(path) && s.nodes[k] == path[0].n && Welcome(s, k, path, skew)
    ensures Reachable(t, skew) && t.nodes == s.nodes[k := path[1].n] && s.ever <= t.ever
    ensures Run(path[1..]) && Welcome(t, k, path[1..], skew)
  {
    Keeps(s, k, path, skew);
    ReachableStep(s, EventOf(k, path[1]), skew);
    t := After(s, EventOf(k, path[1]), skew);
  }

  // Wherever a routine is cut short, the network with its node in that state is
  // reachable: all theorems about reachable networks hold of it.
  lemma {:induction false} RoutineInNetwork(s: Net, k: Node, path: seq<Moment>, skew: int) returns (t: Net)
    requires Reachable(s, skew) && k in s.nodes && Run(path) && s.nodes[k] == path[0].n && Welcome(s, k, path, skew)
    ensures Reachable(t, skew) && t.nodes == s.nodes[k := path[|path| - 1].n] && s.ever <= t.ever
    decreases |path|
  {
    if |path| == 1 {
      t := s;
    } else {
      var u := StepInNetwork(s, k, path, skew);
      t := RoutineInNetwork(u, k, path[1..], skew);
      assert s.nodes[k := path[1].n][k := path[|path| - 1].n] == s.nodes[k := path[|path| - 1].n];
    }
  }

  // So a routine that sends nothing, stopped after any of its file operations, has
  // installed nothing twice.
  lemma RoutineInstallsOnce(s: Net, k: Node, path: seq<Moment>, skew: int)
    requires Reachable(s, skew) && skew <= MAX_SKEW && k in s.nodes && Run(path) && s.nodes[k] == path[0].n
    requires forall i :: 0 < i < |path| ==> PreparedBy(path[i]) == {}
    ensures forall i :: 0 <= i < |path| ==> NoRepeat(path[i].n.box.installs)
  {
    forall i | 0 <= i < |path|
      ensures NoRepeat(path[i].n.box.installs)
    {
      StoppedInstallsOnce(s, k, path[..i + 1], skew);
    }
  }

  lemma StoppedInstallsOnce(s: Net, k: Node, path: seq<Moment>, skew: int)
    requires Reachable(s, skew) && skew <= MAX_SKEW && k in s.nodes && Run(path) && s.nodes[k] == path[0].n
    requires forall i :: 0 < i < |path| ==> PreparedBy(path[i]) == {}
    ensures NoRepeat(path[|path| - 1].n.box.installs)
  {
    var t := RoutineInNetwork(s, k, path, skew);
    InstalledAtMostOnce(t, skew);
    assert k in t.nodes;
  }

  lemma SpoolTidy(sent: map<Id, Message>, n: NodeState)
    requires FilesOk(sent, n.spool) && OutOk(sent, n.name, n.out)
    ensures OneFilePerName(n.spool) && OwnNames(n.out)
    ensures forall f :: f in n.spool && f.Mail? && f.m.id in n.out.new_ ==> f.m == n.out.new_[f.m.id]
  {
    forall f | f in n.spool && f.Mail?
      ensures Known(sent, f.m)
    {
      assert FileOk(sent, f);
    }
  }

  lemma BoxesTidy(sent: map<Id, Message>, n: NodeState)
    requires Accounted(n.out) && OutOk(sent, n.name, n.out)
    ensures forall id :: id in n.out.new_ ==> n.out.new_[id].src == n.name && id !in n.out.acked && id !in n.out.dead
  {
    forall id | id in n.out.new_
      ensures id !in n.out.acked && id !in n.out.dead
    {
      assert Places(n.out, id) == One(id in n.out.enqueued);
    }
  }

  // What the cycle asks of its directories: one message per file name, and each Id in
  // one box.
  lemma DirectoriesTidy(t: Net, skew: int, k: Node)
    requires Reachable(t, skew) && k in t.nodes
    ensures Tidy(t.nodes[k])
  {
    TruthReached(t, skew);
    Facts(t, k);
    assert NodeOk(t.sent, k, t.nodes[k]);
    SpoolTidy(t.sent, t.nodes[k]);
    BoxesTidy(t.sent, t.nodes[k]);
  }
}
