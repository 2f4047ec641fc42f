/**
  Replicas of listener snapshots: the numbers a node publishes under (link/ears.go),
  and the rule by which every other node keeps the newest copy, once in the relay
  (link/install.go) and once in the puller (bin/khala). What a text's number is, if
  it is a valid snapshot, is the parameter `number`.
*/
module Replica {
  import opened Wrappers

  const MAX_INT64 := 0x7FFF_FFFF_FFFF_FFFF

  // ---------------------------------------------------------------- publishing

  // Above every number seen, and not below the clock.
  predicate Advances(next: int, own: int, runtime: int, now: int) {
    next > own && next > runtime && next >= now && (next == now || next == own + 1 || next == runtime + 1)
  }

  // nextSnapshotSequence: own is the number in the node's own snapshot file, runtime
  // the one kept for this boot; 0 where there is none.
  method NextSnapshotSequence(own: int, runtime: int, now: int) returns (next: Option<int>)
    requires 0 <= own <= MAX_INT64 && 0 <= runtime <= MAX_INT64 && 0 < now <= MAX_INT64
    ensures next.Some? ==> Advances(next.value, own, runtime, now) && next.value <= MAX_INT64
    ensures next.None? <==> own == MAX_INT64 || runtime == MAX_INT64
  {
    var n := now;
    var seen := [own, runtime];
    var i := 0;
    while i < 2
      invariant 0 <= i <= 2
      invariant now <= n <= MAX_INT64
      invariant n == now || (i > 0 && n == own + 1) || (i > 1 && n == runtime + 1)
      invariant i > 0 ==> n > own
      invariant i > 1 ==> n > runtime
    {
      if seen[i] >= n {
        if seen[i] == MAX_INT64 {
          return None;
        }
        n := seen[i] + 1;
      }
      i := i + 1;
    }
    next := Some(n);
  }

  // The publisher's records; `published` is history.
  datatype Publisher = Publisher(own: int, runtime: int, published: seq<int>)

  datatype Step =
    | Publish(now: int)          // number drawn, snapshot written
    | Abandon(now: int)          // number drawn, then a crash
    | NewBoot                    // the boot's own record is gone

  ghost predicate Moves(p: Publisher, s: Step, q: Publisher) {
    match s
    case Publish(now) => exists n :: Advances(n, p.own, p.runtime, now) && q == Publisher(n, n, p.published + [n])
    case Abandon(now) => exists n :: Advances(n, p.own, p.runtime, now) && q == p.(runtime := n)
    case NewBoot => q == p.(runtime := 0)
  }

  predicate Rising(ns: seq<int>) {
    forall i, j :: 0 <= i < j < |ns| ==> ns[i] < ns[j]
  }

  ghost predicate Orderly(p: Publisher) {
    Rising(p.published) && forall n :: n in p.published ==> n <= p.own
  }

  lemma RisesOn(ns: seq<int>, n: int)
    requires Rising(ns) && forall m :: m in ns ==> m < n
    ensures Rising(ns + [n])
  {
    forall i, j | 0 <= i < j < |ns + [n]|
      ensures (ns + [n])[i] < (ns + [n])[j]
    {
      assert (ns + [n])[i] == ns[i] && ns[i] in ns;
    }
  }

  lemma MovesOrderly(p: Publisher, s: Step, q: Publisher)
    requires Orderly(p) && Moves(p, s, q)
    ensures Orderly(q)
  {
    if s.Publish? {
      var n :| Advances(n, p.own, p.runtime, s.now) && q == Publisher(n, n, p.published + [n]);
      RisesOn(p.published, n);
    }
  }

  ghost predicate Runs(path: seq<Publisher>, steps: seq<Step>) {
    |path| == |steps| + 1 && forall i :: 0 <= i < |steps| ==> Moves(path[i], steps[i], path[i + 1])
  }

  // While the node's own snapshot file survives, published numbers strictly rise,
  // whatever its clock, its crashes and its boots do.
  lemma {:induction false} PublishedRise(path: seq<Publisher>, steps: seq<Step>)
    requires Runs(path, steps) && path[0].published == []
    ensures Orderly(path[|steps|])
    decreases |steps|
  {
    if steps != [] {
      var n := |steps| - 1;
      PublishedRise(path[..n + 1], steps[..n]);
      MovesOrderly(path[n], steps[n], path[n + 1]);
    }
  }

  // ------------------------------------------------------------------ replicas

  type Text = string
  type Installer = nat             // a relay process, or the puller

  // What an installer has decided by comparing its copy with the file there was.
  datatype Task = Renaming(t: Text) | SettingAside(t: Text)

  // What a replica holds of one node, what was set aside, and the installers
  // between two file operations. `settled` is history: the copies dealt with.
  datatype Folder = Folder(file: Option<Text>, aside: set<Text>, tasks: map<Installer, Task>, settled: set<Text>)

  datatype FileStep =
    | Compare(w: Installer, t: Text)  // w, sent the copy t, has read the file there is
    | Rename(w: Installer)
    | SetAside(w: Installer)
    | Crash(w: Installer)

  const EMPTY := Folder(None, {}, map[], {})

  function NumberOf(number: Text -> Option<int>, file: Option<Text>): Option<int> {
    match file case None => None case Some(t) => number(t)
  }

  // The rule: a text that is no snapshot is dropped; otherwise the higher number
  // stays, the present file among equals, and an equal number with other content
  // is set aside.
  function Judged(number: Text -> Option<int>, file: Option<Text>, t: Text): Option<Task> {
    match number(t)
    case None => None
    case Some(n) =>
      match NumberOf(number, file)
      case None => Some(Renaming(t))
      case Some(m) =>
        if n > m then Some(Renaming(t))
        else if n == m && file != Some(t) then Some(SettingAside(t))
        else None
  }

  predicate Possible(d: Folder, s: FileStep) {
    match s
    case Compare(w, _) => w !in d.tasks
    case Rename(w) => w in d.tasks && d.tasks[w].Renaming?
    case SetAside(w) => w in d.tasks && d.tasks[w].SettingAside?
    case Crash(_) => true
  }

  function After(number: Text -> Option<int>, d: Folder, s: FileStep): Folder
    requires Possible(d, s)
  {
    match s
    case Compare(w, t) =>
      (match Judged(number, d.file, t)
       case None => d.(settled := d.settled + {t})
       case Some(task) => d.(tasks := d.tasks[w := task]))
    case Rename(w) => d.(file := Some(d.tasks[w].t), settled := d.settled + {d.tasks[w].t}, tasks := d.tasks - {w})
    case SetAside(w) => d.(aside := d.aside + {d.tasks[w].t}, settled := d.settled + {d.tasks[w].t}, tasks := d.tasks - {w})
    case Crash(w) => d.(tasks := d.tasks - {w})
  }

  // path is what becomes of an empty replica under steps, which any number of
  // installers take in any interleaving.
  ghost predicate Installs(number: Text -> Option<int>, path: seq<Folder>, steps: seq<FileStep>) {
    && |path| == |steps| + 1 && path[0] == EMPTY
    && forall i :: 0 <= i < |steps| ==> Possible(path[i], steps[i]) && path[i + 1] == After(number, path[i], steps[i])
  }

  predicate Above(number: Text -> Option<int>, u: Text, t: Text) {
    number(u).Some? && number(t).Some? && number(u).value > number(t).value
  }

  // The file is a snapshot of the copies dealt with that none of them is above.
  ghost predicate HoldsNewest(number: Text -> Option<int>, d: Folder) {
    if exists t :: t in d.settled && number(t).Some?
    then
      && d.file.Some? && d.file.value in d.settled && number(d.file.value).Some?
      && forall t :: t in d.settled ==> !Above(number, t, d.file.value)
    else d.file.None?
  }

  // The installer that compares at i renames at k, and at j between the two another
  // one renames a copy with a greater number.
  ghost predicate Overtaken(number: Text -> Option<int>, path: seq<Folder>, steps: seq<FileStep>, i: nat, j: nat, k: nat)
    requires |path| == |steps| + 1
  {
    && i < j < k < |steps| && Waits(steps, i, k) && steps[k] == Rename(steps[i].w)
    && steps[j].Rename? && path[j + 1].file.Some? && Above(number, path[j + 1].file.value, steps[i].t)
  }

  // From its comparison at i until k, the installer does nothing.
  predicate Waits(steps: seq<FileStep>, i: nat, k: nat) {
    i < k <= |steps| && steps[i].Compare? && forall m :: i < m < k ==> steps[m].w != steps[i].w
  }

  // A replica holds the newest of what it was sent, at every moment, if and only if
  // no installer is overtaken between comparing and renaming.
  lemma AlwaysNewestExact(number: Text -> Option<int>, path: seq<Folder>, steps: seq<FileStep>)
    requires Installs(number, path, steps)
    ensures (forall n :: 0 <= n <= |steps| ==> HoldsNewest(number, path[n])) <==>
            (forall i: nat, j: nat, k: nat :: !Overtaken(number, path, steps, i, j, k))
  {
    if forall i: nat, j: nat, k: nat :: !Overtaken(number, path, steps, i, j, k) {
      forall n | 0 <= n <= |steps|
        ensures HoldsNewest(number, path[n])
      {
        NewestIfInTime(number, path, steps, n);
      }
    } else {
      var i: nat, j: nat, k: nat :| Overtaken(number, path, steps, i, j, k);
      TaskKept(number, path, steps, i, k);
      SettledGrows(number, path, steps, j + 1, k + 1);
      assert Above(number, path[j + 1].file.value, steps[i].t);
      assert !HoldsNewest(number, path[k + 1]);
    }
  }

  lemma {:induction false} SettledGrows(number: Text -> Option<int>, path: seq<Folder>, steps: seq<FileStep>, m: nat, n: nat)
    requires Installs(number, path, steps) && m <= n <= |steps|
    ensures path[m].settled <= path[n].settled
    decreases n
  {
    if m < n {
      SettledGrows(number, path, steps, m, n - 1);
    }
  }

  // While an installer waits, what it decided stands.
  lemma {:induction false} TaskKept(number: Text -> Option<int>, path: seq<Folder>, steps: seq<FileStep>, i: nat, k: nat)
    requires Installs(number, path, steps) && Waits(steps, i, k)
    ensures var task := Judged(number, path[i].file, steps[i].t);
      if task.Some? then steps[i].w in path[k].tasks && path[k].tasks[steps[i].w] == task.value else steps[i].w !in path[k].tasks
    decreases k
  {
    if i + 1 < k {
      TaskKept(number, path, steps, i, k - 1);
      assert steps[k - 1].w != steps[i].w;
    }
  }

  // Whoever is about to rename has compared and waited since.
  lemma {:induction false} Compared(number: Text -> Option<int>, path: seq<Folder>, steps: seq<FileStep>, k: nat, w: Installer)
      returns (i: nat)
    requires Installs(number, path, steps) && k <= |steps| && w in path[k].tasks
    ensures Waits(steps, i, k) && steps[i].w == w && Judged(number, path[i].file, steps[i].t) == Some(path[k].tasks[w])
    decreases k
  {
    if steps[k - 1].Compare? && steps[k - 1].w == w {
      i := k - 1;
    } else {
      i := Compared(number, path, steps, k - 1, w);
    }
  }

  // If nothing above t is renamed from i on, the file stays at or below t.
  lemma {:induction false} NothingAbove(number: Text -> Option<int>, path: seq<Folder>, steps: seq<FileStep>, i: nat, k: nat, t: Text)
    requires Installs(number, path, steps) && i <= k <= |steps|
    requires path[i].file.None? || !Above(number, path[i].file.value, t)
    requires forall j :: i <= j < k && steps[j].Rename? ==> !Above(number, path[j + 1].file.value, t)
    ensures path[k].file.None? || !Above(number, path[k].file.value, t)
    decreases k
  {
    if i < k {
      NothingAbove(number, path, steps, i, k - 1, t);
    }
  }

  lemma {:induction false} NewestIfInTime(number: Text -> Option<int>, path: seq<Folder>, steps: seq<FileStep>, n: nat)
    requires Installs(number, path, steps) && n <= |steps|
    requires forall i: nat, j: nat, k: nat :: !Overtaken(number, path, steps, i, j, k)
    ensures HoldsNewest(number, path[n])
    decreases n
  {
    if n > 0 {
      NewestIfInTime(number, path, steps, n - 1);
      var d := path[n - 1];
      match steps[n - 1]
      case Rename(w) =>
        var i := Compared(number, path, steps, n - 1, w);
        var t := steps[i].t;
        assert d.tasks[w] == Renaming(t);
        forall j | i <= j < n - 1 && steps[j].Rename?
          ensures !Above(number, path[j + 1].file.value, t)
        {
          assert !Overtaken(number, path, steps, i, j, n - 1);
        }
        NothingAbove(number, path, steps, i, n - 1, t);
        assert t in path[n].settled && number(t).Some?;
      case SetAside(w) =>
        var i := Compared(number, path, steps, n - 1, w);
        NewestIfInTime(number, path, steps, i);
        AsideNotAbove(number, path, steps, n - 1, i);
      case Compare(_, t) => CompareKeeps(number, d, steps[n - 1]);
      case Crash(_) =>
    }
  }

  // A copy set aside had the number the file had then, and the file never falls.
  lemma AsideNotAbove(number: Text -> Option<int>, path: seq<Folder>, steps: seq<FileStep>, k: nat, i: nat)
    requires Installs(number, path, steps) && k < |steps| && steps[k].SetAside?
    requires Waits(steps, i, k) && steps[i].w == steps[k].w
    requires HoldsNewest(number, path[i]) && HoldsNewest(number, path[k])
    ensures HoldsNewest(number, path[k + 1])
  {
    TaskKept(number, path, steps, i, k);
    SettledGrows(number, path, steps, i, k);
    var t, was := steps[i].t, path[i].file.value;
    assert was in path[k].settled && number(was) == number(t);
    assert !Above(number, was, path[k].file.value);
  }

  lemma CompareKeeps(number: Text -> Option<int>, d: Folder, s: FileStep)
    requires Possible(d, s) && s.Compare? && HoldsNewest(number, d)
    ensures HoldsNewest(number, After(number, d, s))
  {
    var d' := After(number, d, s);
    if d'.settled != d.settled && number(s.t).Some? {
      assert s.t in d'.settled && NumberOf(number, d.file).Some?;
    }
  }

  // So a single installer, or several that exclude each other, never goes back.
  lemma OneInstaller(number: Text -> Option<int>, path: seq<Folder>, steps: seq<FileStep>, w: Installer)
    requires Installs(number, path, steps) && forall m :: 0 <= m < |steps| ==> steps[m].w == w
    ensures forall n :: 0 <= n <= |steps| ==> HoldsNewest(number, path[n])
  {
    AlwaysNewestExact(number, path, steps);
  }

  // The relay and the puller share no lock. Both compare with what is there; the relay
  // renames the newer copy; the puller then renames the older one over it.
  lemma OlderOverNewer(number: Text -> Option<int>, t: Text, u: Text, puller: Installer, relay: Installer)
      returns (path: seq<Folder>, steps: seq<FileStep>)
    requires Above(number, u, t) && puller != relay
    ensures Installs(number, path, steps) && |steps| == 4
    ensures path[3].file == Some(u) && path[4].file == Some(t) && path[4].settled == {t, u} && path[4].tasks == map[]
    ensures !HoldsNewest(number, path[4])
  {
    steps := [Compare(puller, t), Compare(relay, u), Rename(relay), Rename(puller)];
    var a := After(number, EMPTY, steps[0]);
    var b := After(number, a, steps[1]);
    var c := After(number, b, steps[2]);
    var d := After(number, c, steps[3]);
    path := [EMPTY, a, b, c, d];
    assert d.tasks == map[] && d.settled == {t, u};
    assert Above(number, u, d.file.value) && u in d.settled;
  }

  // What an installer decides, by the numbers of its copy and of the file: a higher
  // copy, or any where there is no snapshot, is to be renamed; one with the number of
  // another text is to be set aside; the file's own text, a lower copy and what is no
  // snapshot are done with.
  lemma CompareDecides(number: Text -> Option<int>, d: Folder, w: Installer, t: Text)
    requires w !in d.tasks
    ensures var d' := After(number, d, Compare(w, t)); var done := d.(settled := d.settled + {t});
      if number(t).None? then d' == done
      else if d.file.None? || number(d.file.value).None? then d' == d.(tasks := d.tasks[w := Renaming(t)])
      else
        var mine, theirs := number(t).value, number(d.file.value).value;
        d' == if mine > theirs then d.(tasks := d.tasks[w := Renaming(t)])
              else if mine == theirs && t != d.file.value then d.(tasks := d.tasks[w := SettingAside(t)])
              else done
  {
  }

  lemma {:induction false} FileIsSettled(number: Text -> Option<int>, path: seq<Folder>, steps: seq<FileStep>, n: nat)
    requires Installs(number, path, steps) && n <= |steps|
    ensures path[n].file.Some? ==> path[n].file.value in path[n].settled
    decreases n
  {
    if n > 0 {
      FileIsSettled(number, path, steps, n - 1);
    }
  }

  // What is set aside is a conflict and nothing else: another text of the same number
  // was the file.
  lemma {:induction false} AsideIsConflict(number: Text -> Option<int>, path: seq<Folder>, steps: seq<FileStep>, n: nat, t: Text)
    requires Installs(number, path, steps) && n <= |steps| && t in path[n].aside
    ensures number(t).Some? && exists u :: u in path[n].settled && u != t && number(u) == number(t)
    decreases n
  {
    assert n > 0;
    if t in path[n - 1].aside {
      AsideIsConflict(number, path, steps, n - 1, t);
    } else {
      var i := Compared(number, path, steps, n - 1, steps[n - 1].w);
      FileIsSettled(number, path, steps, i);
      SettledGrows(number, path, steps, i, n);
      assert path[i].file.value in path[n].settled;
    }
  }

  // One writer never gives one number to two texts.
  predicate OneTextPerNumber(number: Text -> Option<int>, ts: set<Text>) {
    forall t, u :: t in ts && u in ts && number(t).Some? && number(t) == number(u) ==> t == u
  }

  // Then two replicas that have dealt with the same copies hold the same file, in
  // whatever order, how often and through however many installers the copies came,
  // as long as nobody was overtaken.
  lemma OrderIndependent(number: Text -> Option<int>, path: seq<Folder>, steps: seq<FileStep>, path': seq<Folder>, steps': seq<FileStep>)
    requires Installs(number, path, steps) && Installs(number, path', steps')
    requires forall i: nat, j: nat, k: nat :: !Overtaken(number, path, steps, i, j, k)
    requires forall i: nat, j: nat, k: nat :: !Overtaken(number, path', steps', i, j, k)
    requires path[|steps|].settled == path'[|steps'|].settled && OneTextPerNumber(number, path[|steps|].settled)
    ensures path[|steps|].file == path'[|steps'|].file
  {
    NewestIfInTime(number, path, steps, |steps|);
    NewestIfInTime(number, path', steps', |steps'|);
    var f, f' := path[|steps|].file, path'[|steps'|].file;
    if f.Some? && f'.Some? {
      assert !Above(number, f.value, f'.value) && !Above(number, f'.value, f.value);
    }
  }

  // An install that nothing interrupts.
  function Installed(number: Text -> Option<int>, d: Folder, w: Installer, t: Text): Folder
    requires w !in d.tasks
  {
    var d := After(number, d, Compare(w, t));
    if w !in d.tasks then d else if d.tasks[w].Renaming? then After(number, d, Rename(w)) else After(number, d, SetAside(w))
  }

  function InstalledAll(number: Text -> Option<int>, d: Folder, w: Installer, ts: seq<Text>): (d': Folder)
    requires w !in d.tasks
    ensures w !in d'.tasks
  {
    if ts == [] then d else Installed(number, InstalledAll(number, d, w, ts[..|ts| - 1]), w, ts[|ts| - 1])
  }

  // Two texts with one number: the first is kept and the other set aside, so the
  // order in which they come then matters.
  lemma ConflictKeepsFirst(number: Text -> Option<int>, w: Installer, t: Text, u: Text)
    requires number(t).Some? && number(t) == number(u) && t != u
    ensures var d := Installed(number, Installed(number, EMPTY, w, t), w, u); d.file == Some(t) && d.aside == {u}
    ensures var d := Installed(number, Installed(number, EMPTY, w, u), w, t); d.file == Some(u) && d.aside == {t}
  {
  }

  // ------------------------------------------------------ the two installers

  class Directory {
    var file: Option<Text>
    var aside: set<Text>
    var tasks: map<Installer, Task>  // where each installer stands
    ghost var settled: set<Text>

    ghost function Abs(): Folder
      reads this
    {
      Folder(file, aside, tasks, settled)
    }

    constructor ()
      ensures Abs() == EMPTY
    {
      file, aside, tasks, settled := None, {}, map[], {};
    }

    // The .ear case of installer.receive, up to its rename.
    method CompareReceived(number: Text -> Option<int>, w: Installer, data: Text)
      requires w !in tasks
      modifies this
      ensures Abs() == After(number, old(Abs()), Compare(w, data))
    {
      var incoming := number(data);
      if incoming.None? {
        settled := settled + {data};
        return;
      }
      if file.Some? {
        var current := number(file.value);
        if current.Some? {
          if incoming.value < current.value {
            settled := settled + {data};
            return;
          } else if incoming.value == current.value && data == file.value {
            settled := settled + {data};
            return;
          } else if incoming.value == current.value {
            tasks := tasks[w := SettingAside(data)];
            return;
          }
        }
      }
      tasks := tasks[w := Renaming(data)];
    }

    // install_pulled_listener_snapshots on one copy, up to its mv.
    method ComparePulled(number: Text -> Option<int>, w: Installer, copy: Text)
      requires w !in tasks
      modifies this
      ensures Abs() == After(number, old(Abs()), Compare(w, copy))
    {
      var incoming := number(copy);
      if incoming.None? {
        settled := settled + {copy};
        return;
      }
      var existing := if file.Some? then number(file.value) else None;
      if existing.Some? {
        if incoming.value < existing.value {
          settled := settled + {copy};
          return;
        }
        if incoming.value == existing.value {
          if Some(copy) == file {
            settled := settled + {copy};
          } else {
            tasks := tasks[w := SettingAside(copy)];
          }
          return;
        }
      }
      tasks := tasks[w := Renaming(copy)];
    }

    // The file operation an installer has decided on.
    method Settle(number: Text -> Option<int>, w: Installer)
      requires w in tasks
      modifies this
      ensures Abs() == After(number, old(Abs()), if old(tasks)[w].Renaming? then Rename(w) else SetAside(w))
    {
      if tasks[w].Renaming? {
        file := Some(tasks[w].t);
      } else {
        aside := aside + {tasks[w].t};
      }
      settled := settled + {tasks[w].t};
      tasks := tasks - {w};
    }

    // The whole of either, when nobody else is at work in between.
    method ReceiveSnapshot(number: Text -> Option<int>, w: Installer, data: Text)
      requires w !in tasks
      modifies this
      ensures Abs() == Installed(number, old(Abs()), w, data)
    {
      CompareReceived(number, w, data);
      if w in tasks {
        Settle(number, w);
      }
    }

    method InstallPulled(number: Text -> Option<int>, w: Installer, pulled: seq<Text>)
      requires w !in tasks
      modifies this
      ensures Abs() == InstalledAll(number, old(Abs()), w, pulled)
    {
      var i := 0;
      while i < |pulled|
        invariant 0 <= i <= |pulled|
        invariant Abs() == InstalledAll(number, old(Abs()), w, pulled[..i])
      {
        assert pulled[..i + 1][..i] == pulled[..i];
        ComparePulled(number, w, pulled[i]);
        if w in tasks {
          Settle(number, w);
        }
        i := i + 1;
      }
      assert pulled[..i] == pulled;
    }
  }
}
