/**
  Session status generations (bin/khala): one shard holds the files of one session,
  named <epoch>.<counter>; the greatest name is the current status. Copies arrive
  late, twice or out of order, and every reconcile pass removes the lower ones.
*/
module SessionStatus {
  import opened Wrappers

  const DAY := 86400

  datatype Generation = Generation(epoch: nat, counter: nat)

  predicate Below(a: Generation, b: Generation) {
    a.epoch < b.epoch || (a.epoch == b.epoch && a.counter < b.counter)
  }

  predicate IsMax(g: Generation, gs: set<Generation>) {
    g in gs && forall h :: h in gs && h != g ==> Below(h, g)
  }

  type Content = string

  // ------------------------------------------------------------- what is promised

  // The name write_session_status_generation picks.
  function NextGeneration(current: Option<Generation>, now: nat): Generation {
    if current.Some? && now <= current.value.epoch then Generation(current.value.epoch, current.value.counter + 1)
    else Generation(now, 0)
  }

  // A written generation is above all of its shard, whatever the clock says.
  lemma WrittenIsAbove(gs: set<Generation>, current: Option<Generation>, now: nat)
    requires if current.Some? then IsMax(current.value, gs) else gs == {}
    ensures forall g :: g in gs ==> Below(g, NextGeneration(current, now))
  {
  }

  // And it is the least such that is not before the clock.
  lemma WrittenIsLeast(gs: set<Generation>, current: Option<Generation>, now: nat, h: Generation)
    requires if current.Some? then IsMax(current.value, gs) else gs == {}
    requires h.epoch >= now && forall g :: g in gs ==> Below(g, h)
    ensures NextGeneration(current, now).epoch >= now && !Below(h, NextGeneration(current, now))
  {
  }

  // Neither over a day ahead of the clock nor older than retention.
  predicate Within(g: Generation, now: nat, retain: nat) {
    g.epoch <= now + DAY && now <= g.epoch + retain
  }

  // ------------------------------------------------------------------- the runs

  // A pass of the collector has chosen `picked` as the current generation, or a
  // writer `writing` as the next one; one lock admits one of them. `ever` is history:
  // all generations ever installed or written.
  datatype Shard = Shard(files: map<Generation, Content>, ever: map<Generation, Content>,
                         picked: Option<Generation>, writing: Option<Generation>)

  datatype Step =
    | Choose(now: nat)                                // the writer names its generation
    | Write(content: Content)                         // and links it, if the name is free
    | Install(g: Generation, content: Content, now: nat, slack: nat)  // without the lock: a pulled copy, or one from the relay, which allows a day more
    | DropFuture(g: Generation, now: nat)             // quarantine
    | Pick(g: Generation)
    | DropLower(g: Generation)
    | DropExpired(now: nat)
    | EndPass                                         // or a crash of pass or writer

  predicate Possible(s: Shard, e: Step, retain: nat) {
    match e
    case Choose(_) => s.picked.None? && s.writing.None?
    case Write(_) => s.writing.Some?
    case Install(_, _, _, _) => true
    case DropFuture(g, now) => s.picked.None? && s.writing.None? && g in s.files && g.epoch > now + DAY
    case Pick(g) => s.picked.None? && s.writing.None? && IsMax(g, s.files.Keys)
    case DropLower(g) => s.picked.Some? && g in s.files && g != s.picked.value
    case DropExpired(now) => s.picked.Some? && s.picked.value.epoch + retain < now
    case EndPass => true
  }

  function Added(s: Shard, g: Generation, content: Content): Shard {
    s.(files := s.files[g := content], ever := s.ever[g := content])
  }

  ghost function CurrentOf(files: map<Generation, Content>): (c: Option<Generation>)
    ensures c.Some? ==> IsMax(c.value, files.Keys)
    ensures c.None? <==> files.Keys == {}
  {
    HasMax(files.Keys);
    if files.Keys == {} then None else var g :| IsMax(g, files.Keys); Some(g)
  }

  lemma {:induction false} HasMax(gs: set<Generation>)
    ensures gs != {} ==> exists g :: IsMax(g, gs)
    decreases |gs|
  {
    if gs != {} {
      var g :| g in gs;
      if gs - {g} == {} {
        assert gs == gs - {g} + {g} == {g};
        assert IsMax(g, gs);
      } else {
        HasMax(gs - {g});
        var h :| IsMax(h, gs - {g});
        var m := if Below(g, h) then h else g;
        forall x | x in gs && x != m
          ensures Below(x, m)
        {
          assert x == g || x in gs - {g};
        }
        assert IsMax(m, gs);
      }
    }
  }

  ghost function After(s: Shard, e: Step, retain: nat): Shard
    requires Possible(s, e, retain)
  {
    match e
    case Choose(now) => s.(writing := Some(NextGeneration(CurrentOf(s.files), now)))
    case Write(content) =>
      var t := s.(writing := None);
      if s.writing.value in s.files then t else Added(t, s.writing.value, content)
    case Install(g, content, now, slack) => if Within(g, now, retain + slack) && g !in s.files then Added(s, g, content) else s
    case DropFuture(g, now) => s.(files := s.files - {g})
    case Pick(g) => s.(picked := Some(g))
    case DropLower(g) => s.(files := s.files - {g})
    case DropExpired(now) => s.(files := s.files - {s.picked.value})
    case EndPass => s.(picked := None, writing := None)
  }

  // What the clocks and the copies must not do: have a pass judge the greatest
  // generation ever far ahead or expired, or bring a greater one during a pass.
  ghost predicate Calm(s: Shard, e: Step, retain: nat) {
    match e
    case Install(g, _, now, slack) => s.picked.Some? && Within(g, now, retain + slack) ==> g == s.picked.value || Below(g, s.picked.value)
    case DropFuture(_, now) => forall m :: IsMax(m, s.ever.Keys) ==> m.epoch <= now + DAY
    case DropExpired(now) => forall m :: IsMax(m, s.ever.Keys) ==> now <= m.epoch + retain
    case _ => true
  }

  // The greatest generation ever is the current one, with its own content.
  ghost predicate Kept(s: Shard) {
    && s.files.Keys <= s.ever.Keys
    && (forall m :: IsMax(m, s.ever.Keys) ==> m in s.files && s.files[m] == s.ever[m])
    && (s.picked.Some? ==> s.writing.None? && s.ever.Keys != {} && IsMax(s.picked.value, s.ever.Keys))
  }

  lemma MaxUnique(g: Generation, h: Generation, gs: set<Generation>)
    requires IsMax(g, gs) && IsMax(h, gs)
    ensures g == h
  {
  }

  lemma MaxOfFiles(s: Shard, g: Generation)
    requires Kept(s) && IsMax(g, s.files.Keys)
    ensures IsMax(g, s.ever.Keys)
  {
    HasMax(s.ever.Keys);
    var m :| IsMax(m, s.ever.Keys);
  }

  lemma AddedKept(s: Shard, g: Generation, content: Content)
    requires Kept(s) && g !in s.files && (s.picked.Some? ==> Below(g, s.picked.value))
    ensures Kept(Added(s, g, content))
  {
    var t := Added(s, g, content);
    forall m | IsMax(m, t.ever.Keys)
      ensures m in t.files && t.files[m] == t.ever[m]
    {
      if m != g {
        assert IsMax(m, s.ever.Keys);
      }
    }
  }

  lemma DropKept(s: Shard, g: Generation)
    requires Kept(s) && !IsMax(g, s.ever.Keys)
    ensures Kept(s.(files := s.files - {g}))
  {
  }

  lemma StepKept(s: Shard, e: Step, retain: nat)
    requires Kept(s) && Possible(s, e, retain) && Calm(s, e, retain)
    ensures Kept(After(s, e, retain))
  {
    match e
    case Choose(now) =>
    case Write(content) =>
      if s.writing.value !in s.files {
        AddedKept(s.(writing := None), s.writing.value, content);
      }
    case Install(g, content, now, slack) =>
      if Within(g, now, retain + slack) && g !in s.files {
        AddedKept(s, g, content);
      }
    case DropFuture(g, now) => DropKept(s, g);
    case Pick(g) => MaxOfFiles(s, g);
    case DropLower(g) => LowerIsNotMax(s, g);
    case DropExpired(now) =>
    case EndPass =>
  }

  lemma LowerIsNotMax(s: Shard, g: Generation)
    requires Kept(s) && s.picked.Some? && g != s.picked.value
    ensures Kept(s.(files := s.files - {g}))
  {
    if IsMax(g, s.ever.Keys) {
      MaxUnique(g, s.picked.value, s.ever.Keys);
    }
    DropKept(s, g);
  }

  ghost predicate Leads(s: Shard, es: seq<Step>, t: Shard, retain: nat)
    decreases |es|
  {
    if es == [] then s == t
    else Possible(s, es[0], retain) && Calm(s, es[0], retain) && Leads(After(s, es[0], retain), es[1..], t, retain)
  }

  lemma {:induction false} RunKept(s: Shard, es: seq<Step>, t: Shard, retain: nat)
    requires Kept(s) && Leads(s, es, t, retain)
    ensures Kept(t)
    decreases |es|
  {
    if es != [] {
      StepKept(s, es[0], retain);
      RunKept(After(s, es[0], retain), es[1..], t, retain);
    }
  }

  // Over any order, repetition and delay of copies, passes and crashes: the current
  // status is the greatest generation the shard ever had, with its first content.
  lemma CurrentIsGreatestEver(es: seq<Step>, t: Shard, retain: nat)
    requires Leads(NO_FILES, es, t, retain)
    ensures CurrentOf(t.files).Some? <==> t.ever != map[]
    ensures CurrentOf(t.files).Some? ==>
      var g := CurrentOf(t.files).value; IsMax(g, t.ever.Keys) && t.files[g] == t.ever[g]
  {
    RunKept(NO_FILES, es, t, retain);
    HasMax(t.ever.Keys);
    assert t.ever.Keys == {} ==> t.ever == map[];
    if CurrentOf(t.files).Some? {
      MaxOfFiles(t, CurrentOf(t.files).value);
      assert CurrentOf(t.files).value in t.ever;
    }
  }

  // The generation g could be removed by the pass that is under way.
  ghost predicate MayLose(s: Shard, g: Generation, retain: nat) {
    exists e :: Possible(s, e, retain) && e.DropLower? && g in s.files && g !in After(s, e, retain).files
  }

  // While a pass is under way, an arriving generation is safe exactly when it is
  // not above the one the pass has picked. (Copies are installed without the lock
  // that a pass holds.)
  lemma ArrivalDuringPassExact(s: Shard, g: Generation, content: Content, now: nat, slack: nat, retain: nat)
    requires Kept(s) && s.picked.Some? && Within(g, now, retain + slack) && g !in s.ever
    ensures var t := After(s, Install(g, content, now, slack), retain);
      (exists m :: IsMax(m, t.ever.Keys) && MayLose(t, m, retain)) <==> Below(s.picked.value, g)
  {
    var t := After(s, Install(g, content, now, slack), retain);
    if Below(s.picked.value, g) {
      assert IsMax(g, t.ever.Keys);
      assert Possible(t, DropLower(g), retain) && g !in After(t, DropLower(g), retain).files;
      assert MayLose(t, g, retain);
    } else {
      assert IsMax(s.picked.value, t.ever.Keys);
      forall m | IsMax(m, t.ever.Keys)
        ensures !MayLose(t, m, retain)
      {
        MaxUnique(m, s.picked.value, t.ever.Keys);
      }
    }
  }

  const NO_FILES := Shard(map[], map[], None, None)

  ghost predicate Goes(s: Shard, es: seq<Step>, t: Shard, retain: nat)
    decreases |es|
  {
    if es == [] then s == t else Possible(s, es[0], retain) && Goes(After(s, es[0], retain), es[1..], t, retain)
  }

  // Such a run: a pass has picked the status written last, a later one arrives from
  // another node, and the pass removes it as a lower one.
  lemma ArrivalLost(now: nat, retain: nat, written: Content, arrived: Content) returns (es: seq<Step>, t: Shard)
    ensures Goes(NO_FILES, es, t, retain) && |es| == 6
    ensures t.ever == map[Generation(now, 0) := written, Generation(now, 1) := arrived]
    ensures t.files == map[Generation(now, 0) := written] && t.picked == None && t.writing == None
  {
    var g, h := Generation(now, 0), Generation(now, 1);
    es := [Choose(now), Write(written), Pick(g), Install(h, arrived, now, 0), DropLower(h), EndPass];
    var a := After(NO_FILES, es[0], retain);
    var b := After(a, es[1], retain);
    assert b == Shard(map[g := written], map[g := written], None, None);
    var c := After(b, es[2], retain);
    var d := After(c, es[3], retain);
    var e := After(d, es[4], retain);
    t := After(e, es[5], retain);
    assert e.files == map[g := written];
    GoesOn([NO_FILES, a, b, c, d, e, t], es, retain, 0);
  }

  // A chain of states is a run.
  lemma {:induction false} GoesOn(path: seq<Shard>, es: seq<Step>, retain: nat, i: nat)
    requires |path| == |es| + 1 && i <= |es|
    requires forall j :: 0 <= j < |es| ==> Possible(path[j], es[j], retain) && path[j + 1] == After(path[j], es[j], retain)
    ensures Goes(path[i], es[i..], path[|es|], retain)
    decreases |es| - i
  {
    if i < |es| {
      GoesOn(path, es, retain, i + 1);
      assert es[i..][0] == es[i] && es[i..][1..] == es[i + 1..];
    }
  }

  // ------------------------------------------------------------------ a writer

  predicate OnlyArrivals(es: seq<Step>) { forall e :: e in es ==> e.Install? }

  // Some copy that is not below g is installed in the course of es.
  ghost predicate Outrun(s: Shard, es: seq<Step>, g: Generation, retain: nat)
    decreases |es|
  {
    es != [] && Possible(s, es[0], retain) &&
    (|| (es[0].Install? && es[0].g !in s.files && Within(es[0].g, es[0].now, retain + es[0].slack) && !Below(es[0].g, g))
     || Outrun(After(s, es[0], retain), es[1..], g, retain))
  }

  lemma {:induction false} ArrivalsBelow(s: Shard, es: seq<Step>, t: Shard, g: Generation, retain: nat)
    requires Goes(s, es, t, retain) && OnlyArrivals(es) && forall h :: h in s.files ==> Below(h, g)
    ensures (forall h :: h in t.files ==> Below(h, g)) <==> !Outrun(s, es, g, retain)
    ensures s.files.Keys <= t.files.Keys && t.writing == s.writing
    decreases |es|
  {
    if es != [] {
      assert es[0] in es;
      var u := After(s, es[0], retain);
      if forall h :: h in u.files ==> Below(h, g) {
        ArrivalsBelow(u, es[1..], t, g, retain);
      } else {
        ArrivalsStay(u, es[1..], t, retain);
        assert es[0].g in u.files && !Below(es[0].g, g);
      }
    }
  }

  lemma {:induction false} ArrivalsStay(s: Shard, es: seq<Step>, t: Shard, retain: nat)
    requires Goes(s, es, t, retain) && OnlyArrivals(es)
    ensures s.files.Keys <= t.files.Keys && t.writing == s.writing
    decreases |es|
  {
    if es != [] {
      assert es[0] in es;
      ArrivalsStay(After(s, es[0], retain), es[1..], t, retain);
    }
  }

  // A writer chooses a generation, copies arrive, and it links the file: what it has
  // chosen is then above all of the shard if and only if no copy that is not below
  // arrived meanwhile.
  lemma WrittenIsAboveExact(s: Shard, now: nat, es: seq<Step>, t: Shard, retain: nat)
    requires Possible(s, Choose(now), retain) && Goes(After(s, Choose(now), retain), es, t, retain) && OnlyArrivals(es)
    ensures t.writing.Some? && t.writing.value.epoch >= now
    ensures (forall h :: h in t.files ==> Below(h, t.writing.value)) <==>
            !Outrun(After(s, Choose(now), retain), es, t.writing.value, retain)
  {
    var u := After(s, Choose(now), retain);
    WrittenIsAbove(s.files.Keys, CurrentOf(s.files), now);
    ArrivalsStay(u, es, t, retain);
    ArrivalsBelow(u, es, t, u.writing.value, retain);
  }

  // Such a run: a greater generation arrives between the choice and the link.
  lemma WrittenBelow(now: nat, retain: nat, written: Content, arrived: Content) returns (es: seq<Step>, t: Shard)
    ensures Goes(NO_FILES, es, t, retain) && |es| == 3 && es[0] == Choose(now) && es[2] == Write(written)
    ensures t.files == map[Generation(now, 1) := arrived, Generation(now, 0) := written]
    ensures CurrentOf(t.files) == Some(Generation(now, 1))
  {
    var g, h := Generation(now, 0), Generation(now, 1);
    es := [Choose(now), Install(h, arrived, now, 0), Write(written)];
    var a := After(NO_FILES, es[0], retain);
    var b := After(a, es[1], retain);
    assert b == Shard(map[h := arrived], map[h := arrived], None, Some(g));
    t := After(b, es[2], retain);
    assert t.files.Keys == {g, h};
    CurrentIs(t.files, h);
    GoesOn([NO_FILES, a, b, t], es, retain, 0);
  }

  // ---------------------------------------------------------------- a whole pass

  // What a pass at `now` makes of the files, if no copy arrives meanwhile. The
  // greatest generation itself goes only when the retention sweep is due.
  ghost function Pruned(files: map<Generation, Content>, now: nat, retain: nat, sweep: bool): map<Generation, Content> {
    Left(files, CurrentOf(Near(files, now)), now, retain, sweep)
  }

  function Near(files: map<Generation, Content>, now: nat): map<Generation, Content> {
    map g | g in files && g.epoch <= now + DAY :: files[g]
  }

  function Left(files: map<Generation, Content>, current: Option<Generation>, now: nat, retain: nat, sweep: bool): map<Generation, Content> {
    if current.None? || current.value !in files || (sweep && current.value.epoch + retain < now) then map[]
    else map[current.value := files[current.value]]
  }

  // es is a whole pass from s to t: every file far ahead goes, the current one is
  // picked, every other goes, and at a due sweep an expired current one.
  ghost predicate Passes(s: Shard, es: seq<Step>, t: Shard, now: nat, retain: nat, sweep: bool)
    decreases |es|
  {
    es != [] && Possible(s, es[0], retain) &&
    var rest := After(s, es[0], retain);
    match es[0]
    case DropFuture(_, at) => at == now && Passes(rest, es[1..], t, now, retain, sweep)
    case Pick(_) => Near(s.files, now) == s.files && Passes(rest, es[1..], t, now, retain, sweep)
    case DropLower(_) => Passes(rest, es[1..], t, now, retain, sweep)
    case DropExpired(at) => at == now && sweep && Passes(rest, es[1..], t, now, retain, sweep)
    case EndPass => |es| == 1 && t == rest && s.files == Pruned(s.files, now, retain, sweep)
    case _ => false
  }

  lemma CurrentIs(files: map<Generation, Content>, g: Generation)
    requires IsMax(g, files.Keys)
    ensures CurrentOf(files) == Some(g)
  {
    MaxUnique(g, CurrentOf(files).value, files.Keys);
  }

  // While a current one is picked, only it can be left.
  ghost predicate Picking(s: Shard, now: nat, retain: nat, sweep: bool) {
    && s.picked.Some? && Near(s.files, now) == s.files
    && (s.picked.value in s.files || (sweep && s.picked.value.epoch + retain < now))
    && forall h :: h in s.files && h != s.picked.value ==> Below(h, s.picked.value)
  }

  lemma {:induction false} PickedLeaves(s: Shard, es: seq<Step>, t: Shard, now: nat, retain: nat, sweep: bool)
    requires Picking(s, now, retain, sweep) && Passes(s, es, t, now, retain, sweep)
    ensures t.files == Left(s.files, s.picked, now, retain, sweep) && t.ever == s.ever && t.picked.None?
    decreases |es|
  {
    if es[0].EndPass? {
      EndLeaves(s, now, retain, sweep);
    } else {
      PickedLeaves(After(s, es[0], retain), es[1..], t, now, retain, sweep);
    }
  }

  lemma EndLeaves(s: Shard, now: nat, retain: nat, sweep: bool)
    requires Picking(s, now, retain, sweep) && s.files == Pruned(s.files, now, retain, sweep)
    ensures s.files == Left(s.files, s.picked, now, retain, sweep)
  {
    if s.picked.value in s.files {
      CurrentIs(s.files, s.picked.value);
    }
  }

  // Whatever the order in which the files come, a pass does what Pruned says.
  lemma {:induction false} PassLeaves(s: Shard, es: seq<Step>, t: Shard, now: nat, retain: nat, sweep: bool)
    requires s.picked.None? && Passes(s, es, t, now, retain, sweep)
    ensures t.files == Pruned(s.files, now, retain, sweep) && t.ever == s.ever && t.picked.None?
    decreases |es|
  {
    match es[0]
    case DropFuture(g, _) =>
      assert Near(After(s, es[0], retain).files, now) == Near(s.files, now);
      PassLeaves(After(s, es[0], retain), es[1..], t, now, retain, sweep);
    case Pick(g) =>
      CurrentIs(s.files, g);
      PickedLeaves(After(s, es[0], retain), es[1..], t, now, retain, sweep);
    case EndPass =>
  }

  // After a pass the greatest generation ever is the current one, with its content,
  // if and only if it was not far ahead and not expired at a due sweep. Far ahead,
  // it gives way to a lower one.
  lemma PassKeepsExactly(s: Shard, es: seq<Step>, t: Shard, m: Generation, now: nat, retain: nat, sweep: bool)
    requires Kept(s) && s.picked.None? && IsMax(m, s.ever.Keys) && Passes(s, es, t, now, retain, sweep)
    ensures CurrentOf(t.files) == Some(m) <==> m.epoch <= now + DAY && (sweep ==> now <= m.epoch + retain)
    ensures CurrentOf(t.files) == Some(m) ==> t.files == map[m := s.ever[m]]
    ensures m.epoch > now + DAY ==> forall g :: CurrentOf(t.files) == Some(g) ==> Below(g, m)
  {
    PassLeaves(s, es, t, now, retain, sweep);
    var near := Near(s.files, now);
    if m.epoch <= now + DAY {
      CurrentIs(near, m);
      assert t.files == if sweep && m.epoch + retain < now then map[] else map[m := s.ever[m]];
    } else {
      assert forall g :: g in t.files ==> g in near && Below(g, m);
    }
    if t.files == map[m := s.ever[m]] {
      CurrentIs(t.files, m);
    }
  }

  // ----------------------------------------------------------- the imperative form

  class ShardFiles {
    var files: map<Generation, Content>
    ghost var ever: map<Generation, Content>

    ghost function Abs(): Shard
      reads this
    {
      Shard(files, ever, None, None)
    }

    constructor ()
      ensures Abs() == NO_FILES
    {
      files, ever := map[], map[];
    }

    // current_session_status_generation
    method CurrentGeneration() returns (current: Option<Generation>)
      ensures if current.Some? then IsMax(current.value, files.Keys) else files.Keys == {}
    {
      var left := files.Keys;
      current := None;
      while left != {}
        invariant left <= files.Keys
        invariant if current.Some? then IsMax(current.value, files.Keys - left) else files.Keys - left == {}
      {
        var g :| g in left;
        ghost var seen := files.Keys - left;
        left := left - {g};
        assert files.Keys - left == seen + {g};
        if current.None? || g.epoch > current.value.epoch ||
           (g.epoch == current.value.epoch && g.counter > current.value.counter) {
          current := Some(g);
        }
      }
      assert files.Keys - {} == files.Keys;
    }

    // write_session_status_generation, nothing arriving meanwhile.
    method WriteGeneration(now: nat, content: Content) returns (g: Generation)
      modifies this
      ensures forall h :: h in old(files) ==> Below(h, g)
      ensures files == old(files)[g := content] && ever == old(ever)[g := content]
      ensures g.epoch >= now && g == NextGeneration(CurrentOf(old(files)), now)
    {
      var current := CurrentGeneration();
      if current.Some? {
        CurrentIs(files, current.value);
      }
      WrittenIsAbove(files.Keys, current, now);
      var epoch, counter := now, 0;
      if current.Some? && now <= current.value.epoch {
        epoch := current.value.epoch;
        counter := current.value.counter + 1;
      }
      g := Generation(epoch, counter);
      files := files[g := content];
      ever := ever[g := content];
    }

    // One file of install_pulled_session_status.
    method InstallPulled(g: Generation, content: Content, now: nat, retain: nat) returns (quarantined: bool)
      modifies this
      ensures Abs() == After(old(Abs()), Install(g, content, now, 0), retain)
      // installed if it is new, not over a day ahead and within retention
      ensures files == if g !in old(files) && g.epoch <= now + 86400 && now <= g.epoch + retain then old(files)[g := content] else old(files)
      ensures quarantined <==>
        g.epoch > now + DAY || (Within(g, now, retain) && g in old(files) && old(files)[g] != content)
    {
      if g.epoch > now + DAY {
        return true;
      }
      if g.epoch + retain < now {
        return false;
      }
      if g in files {
        return files[g] != content;
      }
      files := files[g := content];
      ever := ever[g := content];
      quarantined := false;
    }

    // prune_session_status_generations on one shard, nothing arriving meanwhile.
    method Prune(now: nat, retain: nat, retention: bool)
      modifies this`files
      ensures files == Pruned(old(files), now, retain, retention)
    {
      var left := files.Keys;
      while left != {}
        invariant left <= old(files).Keys
        invariant files == old(files) - set h | h in old(files).Keys - left && h.epoch > now + DAY
      {
        var g :| g in left;
        ghost var done := old(files).Keys - left;
        left := left - {g};
        assert old(files).Keys - left == done + {g};
        if g.epoch > now + DAY {
          files := files - {g};
        }
      }
      assert files == Near(old(files), now);
      var current := CurrentGeneration();
      if current.None? {
        return;
      }
      ghost var valid := files;
      left := files.Keys;
      while left != {}
        invariant left <= valid.Keys
        invariant files == valid - set h | h in valid.Keys - left && h != current.value
      {
        var g :| g in left;
        ghost var done := valid.Keys - left;
        left := left - {g};
        assert valid.Keys - left == done + {g};
        if g != current.value {
          files := files - {g};
        }
      }
      assert files.Keys == {current.value};
      if retention && current.value.epoch + retain < now {
        files := files - {current.value};
      }
      CurrentIs(valid, current.value);
    }
  }
}
