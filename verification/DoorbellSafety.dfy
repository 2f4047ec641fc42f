/**
  Invariant 5 of the doorbell (link/conduit.go:266-267), over whole runs: while the
  target stays the same, a frame written when k >= 1 earlier frames are undrained
  comes at least RetryAfter(k) after the last of them.
*/
module DoorbellSafety {
  import opened Doorbell
  import opened Wrappers

  // `era` holds the journals since the target last changed, `past` those before;
  // `drained` is the latest second any inbox-read marker ever carried.
  datatype World = World(core: Core, now: int, target: Target, past: seq<Journal>, era: seq<Journal>, drained: int)

  datatype Event =
    | Scan(p: Pass)                     // maybeNotify
    | Empty                             // the inbox is empty: the state is dropped
    | Restart                           // the conduit starts again, within one boot
    | Unowned(digest: string)           // a non-empty inbox without a live owner
    | Drain(marker: Marker)             // the session reads its inbox
    | Turn(turn: Option<int>)           // the session ends a turn

  predicate Possible(w: World, e: Event) {
    match e
    case Scan(p) => w.now < p.now && p.target.instance != ""
    case _ => true
  }

  function Max(a: int, b: int): int { if a < b then b else a }

  // The journal a pass leaves, if any.
  function Added(w: World, p: Pass, cfg: Config): seq<Journal>
    requires cfg.Valid()
    ensures Notified(w.core, p, cfg).disk.journals == w.core.disk.journals + Added(w, p, cfg)
    ensures |Added(w, p, cfg)| <= 1
  {
    var js := Notified(w.core, p, cfg).disk.journals;
    if js == w.core.disk.journals then [] else [js[|js| - 1]]
  }

  // A pass for another target starts a new era.
  function Era(w: World, p: Pass): seq<Journal> {
    if p.target == w.target then w.era else []
  }

  function Past(w: World, p: Pass): seq<Journal> {
    if p.target == w.target then w.past else w.past + w.era
  }

  function After(w: World, e: Event, cfg: Config): World
    requires Possible(w, e) && cfg.Valid()
  {
    match e
    case Scan(p) =>
      World(Notified(w.core, p, cfg), p.now, p.target, Past(w, p), Era(w, p) + Added(w, p, cfg), w.drained)
    case Empty => w.(core := w.core.(state := None))
    case Restart => w.(core := w.core.(state := None))
    case Unowned(digest) => w.(core := Observed(w.core, digest))
    case Drain(m) => w.(core := w.core.(disk := w.core.disk.(marker := m)), drained := Max(w.drained, m.lastDrain))
    case Turn(t) => w.(core := w.core.(disk := w.core.disk.(turn := t)))
  }

  // ------------------------------------------------------- frames and drains

  // Frames with no drain stamp at or after their second.
  function Owed(js: seq<Journal>, instance: string, drained: int): nat {
    if js == [] then 0
    else
      var j := js[|js| - 1];
      Owed(js[..|js| - 1], instance, drained) + if j.instance == instance && j.written && drained < Unix(j.at) then 1 else 0
  }

  // When the last of them was written.
  function LastOwed(js: seq<Journal>, instance: string, drained: int): int {
    if js == [] then 0
    else
      var j := js[|js| - 1];
      if j.instance == instance && j.written && drained < Unix(j.at) then j.at
      else LastOwed(js[..|js| - 1], instance, drained)
  }

  function Undrained(w: World): nat { Owed(w.era, w.target.instance, w.drained) }

  function LastFrame(w: World): int { LastOwed(w.era, w.target.instance, w.drained) }

  function Due(w: World, cfg: Config): int
    requires cfg.Valid()
  {
    LastFrame(w) + cfg.RetryAfter(Undrained(w))
  }

  // Every attempt, successful or not, waited for the schedule of the frames then
  // undrained.
  predicate Spaced(js: seq<Journal>, instance: string, drained: int, cfg: Config)
    requires cfg.Valid()
  {
    js == [] ||
    (var before := js[..|js| - 1];
     Spaced(before, instance, drained, cfg) &&
     (Owed(before, instance, drained) > 0 ==>
        js[|js| - 1].at >= LastOwed(before, instance, drained) + cfg.RetryAfter(Owed(before, instance, drained))))
  }

  predicate Before(js: seq<Journal>, now: int) {
    forall j :: j in js ==> j.at <= now
  }

  predicate Increasing(js: seq<Journal>) {
    forall i, j :: 0 <= i < j < |js| ==> js[i].at < js[j].at
  }

  predicate AllOf(js: seq<Journal>, instance: string) {
    forall j :: j in js ==> j.instance == instance
  }

  // What the live state promises about the schedule.
  predicate Patient(s: State, js: seq<Journal>, instance: string, drained: int, cfg: Config)
    requires cfg.Valid()
  {
    var k, last := Owed(js, instance, drained), LastOwed(js, instance, drained);
    k > 0 ==> s.outstanding >= k && s.outstandingWritten == last && s.nextAttempt >= last + cfg.RetryAfter(k)
  }

  predicate Records(w: World) {
    && w.core.disk.journals == w.past + w.era
    && (forall j :: j in w.core.disk.journals ==> j.instance in w.core.disk.dirs)
    && w.core.disk.marker.lastDrain <= w.drained
    && Before(w.era, w.now) && Increasing(w.era) && AllOf(w.era, w.target.instance)
  }

  predicate Inv(w: World, cfg: Config)
    requires cfg.Valid()
  {
    && Records(w)
    && Spaced(w.era, w.target.instance, w.drained, cfg)
    && (w.core.state.Some? ==>
          && (w.core.state.value.target == BLANK || w.core.state.value.target == w.target)
          && Patient(w.core.state.value, w.era, w.target.instance, w.drained, cfg))
  }

  // --------------------------------------------------- drains only forgive

  lemma {:induction false} OwedIsBefore(js: seq<Journal>, instance: string, drained: int)
    ensures Owed(js, instance, drained) > 0 ==> drained < Unix(LastOwed(js, instance, drained))
    ensures Owed(js, instance, drained) == 0 ==> LastOwed(js, instance, drained) == 0
  {
    if js != [] {
      OwedIsBefore(js[..|js| - 1], instance, drained);
    }
  }

  lemma {:induction false} LaterDrain(js: seq<Journal>, instance: string, a: int, b: int)
    requires a <= b && Increasing(js)
    ensures Owed(js, instance, b) <= Owed(js, instance, a)
    ensures Owed(js, instance, b) > 0 ==> LastOwed(js, instance, b) == LastOwed(js, instance, a)
  {
    if js != [] {
      LaterDrain(js[..|js| - 1], instance, a, b);
      if Unix(js[|js| - 1].at) <= b {
        NoneAfter(js[..|js| - 1], instance, b, js[|js| - 1].at);
      }
    }
  }

  // A drain that covers a frame covers all earlier ones.
  lemma {:induction false} NoneAfter(js: seq<Journal>, instance: string, drained: int, at: int)
    requires Unix(at) <= drained && Before(js, at)
    ensures Owed(js, instance, drained) == 0
  {
    if js != [] {
      NoneAfter(js[..|js| - 1], instance, drained, at);
      assert js[|js| - 1] in js;
    }
  }

  lemma {:induction false} LaterSpaced(js: seq<Journal>, instance: string, a: int, b: int, cfg: Config)
    requires cfg.Valid() && a <= b && Increasing(js) && Spaced(js, instance, a, cfg)
    ensures Spaced(js, instance, b, cfg)
  {
    if js != [] {
      var before := js[..|js| - 1];
      LaterSpaced(before, instance, a, b, cfg);
      LaterDrain(before, instance, a, b);
      RetryGrows(cfg, Owed(before, instance, b), Owed(before, instance, a));
    }
  }

  // ------------------------------------------------- what a rebuild recovers

  lemma {:induction false} ReplayCounts(s: State, js: seq<Journal>, instance: string, lastDrain: int, current: bool)
    requires s.outstanding == 0 && s.outstandingWritten == 0
    ensures var r := Replayed(s, js, instance, lastDrain, current);
      r.outstanding == Owed(js, instance, lastDrain) && r.outstandingWritten == LastOwed(js, instance, lastDrain)
  {
    if js != [] {
      ReplayCounts(s, js[..|js| - 1], instance, lastDrain, current);
    }
  }

  lemma {:induction false} OwedSplits(past: seq<Journal>, era: seq<Journal>, instance: string, drained: int)
    ensures Owed(past + era, instance, drained) >= Owed(era, instance, drained)
    ensures Owed(era, instance, drained) > 0 ==> LastOwed(past + era, instance, drained) == LastOwed(era, instance, drained)
  {
    if era != [] {
      OwedSplits(past, era[..|era| - 1], instance, drained);
      assert (past + era)[..|past + era| - 1] == past + era[..|era| - 1];
    }
  }

  // After a drop or a restart, the journals and the marker give back at least what
  // the schedule owes.
  lemma RestorePatient(w: World, p: Pass, cfg: Config)
    requires cfg.Valid() && Inv(w, cfg) && p.target == w.target
    ensures Patient(Restored(w.core.disk, p.target.instance, p.digest, cfg).0, w.era, w.target.instance, w.drained, cfg)
  {
    var d, i, k := w.core.disk, p.target.instance, Owed(w.era, p.target.instance, w.drained);
    if k > 0 {
      var last := w.era[|w.era| - 1];
      assert last in w.era && last.instance == i;
      assert d.journals[|d.journals| - 1] == last;
      var s := Replayed(FromSidecar(d, p.digest), d.journals, i, d.marker.lastDrain, SidecarCurrent(d, p.digest));
      ReplayCounts(FromSidecar(d, p.digest), d.journals, i, d.marker.lastDrain, SidecarCurrent(d, p.digest));
      OwedSplits(w.past, w.era, i, d.marker.lastDrain);
      LaterDrain(w.era, i, d.marker.lastDrain, w.drained);
      RetryGrows(cfg, k, s.outstanding);
      assert Restored(d, i, p.digest, cfg).0 == Resumed(s, last, cfg);
    }
  }

  // ---------------------------------------------------------------- one pass

  lemma AimPatient(w: World, p: Pass, cfg: Config)
    requires cfg.Valid() && Inv(w, cfg)
    ensures var (s, d) := Aimed(w.core, p, cfg);
      && s.target == p.target && d == w.core.disk.(sidecar := d.sidecar)
      && Patient(s, Era(w, p), p.target.instance, w.drained, cfg)
  {
    if w.core.state.None? && p.target == w.target {
      RestorePatient(w, p, cfg);
    }
  }

  lemma ListenPatient(s: State, d: Disk, js: seq<Journal>, drained: int, p: Pass, cfg: Config)
    requires cfg.Valid() && d.marker.lastDrain <= drained && Patient(s, js, p.target.instance, drained, cfg)
    ensures var (s', d') := Digested(Heard(s, d.marker, p.now), d, p.digest, p.now, cfg);
      && s'.target == s.target && d' == d.(sidecar := d'.sidecar)
      && Patient(s', js, p.target.instance, drained, cfg)
  {
    OwedIsBefore(js, p.target.instance, drained);
  }

  lemma OwedMore(js: seq<Journal>, j: Journal, instance: string, drained: int)
    ensures var owed := j.instance == instance && j.written && drained < Unix(j.at);
      && Owed(js + [j], instance, drained) == Owed(js, instance, drained) + (if owed then 1 else 0)
      && LastOwed(js + [j], instance, drained) == if owed then j.at else LastOwed(js, instance, drained)
  {
    assert (js + [j])[..|js + [j]| - 1] == js;
  }

  lemma SpacedMore(js: seq<Journal>, j: Journal, instance: string, drained: int, cfg: Config)
    requires cfg.Valid() && Spaced(js, instance, drained, cfg)
    requires Owed(js, instance, drained) > 0 ==> j.at >= LastOwed(js, instance, drained) + cfg.RetryAfter(Owed(js, instance, drained))
    ensures Spaced(js + [j], instance, drained, cfg)
  {
    assert (js + [j])[..|js + [j]| - 1] == js;
  }

  lemma IncreasingMore(js: seq<Journal>, j: Journal)
    requires Increasing(js) && forall k :: k in js ==> k.at < j.at
    ensures Increasing(js + [j])
  {
  }

  // A frame raises the live count at least as much as the true one.
  lemma WrittenPatient(s: State, js: seq<Journal>, drained: int, now: int, j: Journal, cfg: Config)
    requires cfg.Valid() && Patient(s, js, j.instance, drained, cfg) && j.written && j.at == now
    requires forall k :: k in js ==> k.at < now
    ensures Patient(Written(s, now, cfg), js + [j], j.instance, drained, cfg)
  {
    OwedMore(js, j, j.instance, drained);
    RetryGrows(cfg, Owed(js, j.instance, drained) + 1, s.outstanding + 1);
    RetryGrows(cfg, 1, s.outstanding + 1);
    if Unix(now) <= drained {
      NoneAfter(js, j.instance, drained, now);
    }
  }

  // One more attempt, made when nothing holds it back.
  lemma AttemptSpaced(s: State, turn: Option<int>, js: seq<Journal>, drained: int, p: Pass, j: Journal, cfg: Config)
    requires cfg.Valid() && Patient(s, js, p.target.instance, drained, cfg) && Spaced(js, p.target.instance, drained, cfg)
    requires !Held(s, turn, p.now) && j.at == p.now && j.instance == p.target.instance
    requires forall k :: k in js ==> k.at < p.now
    requires Increasing(js)
    ensures Spaced(js + [j], p.target.instance, drained, cfg)
    ensures Owed(js, p.target.instance, drained) > 0 ==>
      p.now >= LastOwed(js, p.target.instance, drained) + cfg.RetryAfter(Owed(js, p.target.instance, drained))
    ensures Increasing(js + [j])
    ensures if j.written then Patient(Written(s, p.now, cfg), js + [j], p.target.instance, drained, cfg)
            else Patient(Failed(s, p.now, cfg), js + [j], p.target.instance, drained, cfg)
  {
    SpacedMore(js, j, j.instance, drained, cfg);
    IncreasingMore(js, j);
    if j.written {
      WrittenPatient(s, js, drained, p.now, j, cfg);
    } else {
      OwedMore(js, j, j.instance, drained);
    }
  }

  // What has to be shown of a pass that leaves the journals js in the era.
  lemma ScanInv(w: World, p: Pass, js: seq<Journal>, cfg: Config)
    requires cfg.Valid() && Records(w) && Possible(w, Scan(p))
    requires Era(w, p) + Added(w, p, cfg) == js
    requires forall j :: j in Added(w, p, cfg) ==> j.instance == p.target.instance && j.at == p.now
    requires var d := Notified(w.core, p, cfg).disk; d.dirs >= w.core.disk.dirs && d.marker == w.core.disk.marker
    requires Added(w, p, cfg) != [] ==> p.target.instance in Notified(w.core, p, cfg).disk.dirs
    requires Spaced(js, p.target.instance, w.drained, cfg) && Increasing(js)
    requires var o := Notified(w.core, p, cfg).state;
      o.Some? ==> o.value.target == p.target && Patient(o.value, js, p.target.instance, w.drained, cfg)
    ensures Inv(After(w, Scan(p), cfg), cfg)
  {
    assert Past(w, p) + Era(w, p) == w.core.disk.journals;
    RecordsMore(w, Notified(w.core, p, cfg), Past(w, p), Era(w, p), Added(w, p, cfg), p, js);
  }

  // What the pass has made of the journals, its own one included.
  lemma RecordsMore(w: World, c: Core, past: seq<Journal>, era: seq<Journal>, added: seq<Journal>, p: Pass, js: seq<Journal>)
    requires Records(w) && w.now < p.now && past + era == w.core.disk.journals && js == era + added
    requires c.disk.journals == w.core.disk.journals + added && c.disk.dirs >= w.core.disk.dirs && c.disk.marker == w.core.disk.marker
    requires forall j :: j in era ==> j in w.era && j.instance == p.target.instance
    requires forall j :: j in added ==> j.instance == p.target.instance && j.at == p.now
    requires added != [] ==> p.target.instance in c.disk.dirs
    requires Increasing(js)
    ensures Records(World(c, p.now, p.target, past, js, w.drained))
  {
    assert c.disk.journals == past + js;
  }

  lemma ScanKeeps(w: World, p: Pass, cfg: Config)
    requires cfg.Valid() && Inv(w, cfg) && Possible(w, Scan(p))
    ensures Inv(After(w, Scan(p), cfg), cfg)
    ensures Added(w, p, cfg) != [] && p.target == w.target && Undrained(w) > 0 ==> p.now >= Due(w, cfg)
  {
    var js := Era(w, p);
    AimPatient(w, p, cfg);
    var (s, d) := Aimed(w.core, p, cfg);
    ListenPatient(s, d, js, w.drained, p, cfg);
    var (s', d') := Digested(Heard(s, d.marker, p.now), d, p.digest, p.now, cfg);
    if Held(s', d'.turn, p.now) {
      ScanWaits(w, p, s', d', cfg);
    } else {
      ScanAttempts(w, p, s', d', cfg);
    }
  }

  lemma ScanWaits(w: World, p: Pass, s: State, d: Disk, cfg: Config)
    requires cfg.Valid() && Inv(w, cfg) && Possible(w, Scan(p)) && s.target == p.target
    requires Notified(w.core, p, cfg) == Core(Some(s), d) && d == w.core.disk.(sidecar := d.sidecar)
    requires Patient(s, Era(w, p), p.target.instance, w.drained, cfg)
    ensures Added(w, p, cfg) == [] && Inv(After(w, Scan(p), cfg), cfg)
  {
    ScanInv(w, p, Era(w, p), cfg);
  }

  lemma AttemptShape(s: State, d: Disk, p: Pass, cfg: Config)
    requires cfg.Valid()
    ensures var s1 := s.(attemptIndex := s.attemptIndex + 1);
      var j := Journal(p.now, p.target.instance, p.verified && p.delivered, s1.attemptIndex, p.digest);
      var c := Attempted(s, d, p, cfg);
      if p.verified && p.recheck != Unchanged
      then c.disk == d && (c.state == None || c.state == Some(s1))
      else
        && c.disk.journals == d.journals + [j] && c.disk.dirs == d.dirs + {p.target.instance} && c.disk.marker == d.marker
        && c.state == Some(if j.written then Written(s1, p.now, cfg) else Failed(s1, p.now, cfg))
  {
  }

  lemma ScanAttempts(w: World, p: Pass, s: State, d: Disk, cfg: Config)
    requires cfg.Valid() && Inv(w, cfg) && Possible(w, Scan(p)) && s.target == p.target
    requires Notified(w.core, p, cfg) == Attempted(s, d, p, cfg) && d == w.core.disk.(sidecar := d.sidecar)
    requires Patient(s, Era(w, p), p.target.instance, w.drained, cfg) && !Held(s, d.turn, p.now)
    ensures Inv(After(w, Scan(p), cfg), cfg)
    ensures Added(w, p, cfg) != [] && p.target == w.target && Undrained(w) > 0 ==> p.now >= Due(w, cfg)
  {
    AttemptShape(s, d, p, cfg);
    if p.verified && p.recheck != Unchanged {
      ScanInv(w, p, Era(w, p), cfg);
    } else {
      var s1 := s.(attemptIndex := s.attemptIndex + 1);
      var j := Journal(p.now, p.target.instance, p.verified && p.delivered, s1.attemptIndex, p.digest);
      OneAdded(w, p, j, cfg);
      ScanRecords(w, p, s1, d.turn, j, cfg);
    }
  }

  lemma OneAdded(w: World, p: Pass, j: Journal, cfg: Config)
    requires cfg.Valid() && Notified(w.core, p, cfg).disk.journals == w.core.disk.journals + [j]
    ensures Added(w, p, cfg) == [j]
  {
  }

  lemma ScanRecords(w: World, p: Pass, s: State, turn: Option<int>, j: Journal, cfg: Config)
    requires cfg.Valid() && Inv(w, cfg) && Possible(w, Scan(p)) && s.target == p.target
    requires Patient(s, Era(w, p), p.target.instance, w.drained, cfg) && !Held(s, turn, p.now)
    requires Added(w, p, cfg) == [j] && j.at == p.now && j.instance == p.target.instance
    requires var c := Notified(w.core, p, cfg);
      && c.disk.dirs == w.core.disk.dirs + {p.target.instance} && c.disk.marker == w.core.disk.marker
      && c.state == Some(if j.written then Written(s, p.now, cfg) else Failed(s, p.now, cfg))
    ensures Inv(After(w, Scan(p), cfg), cfg)
    ensures p.target == w.target && Undrained(w) > 0 ==> p.now >= Due(w, cfg)
  {
    AttemptSpaced(s, turn, Era(w, p), w.drained, p, j, cfg);
    ScanInv(w, p, Era(w, p) + [j], cfg);
  }

  // ------------------------------------------------------------- whole runs

  // An unowned scan does not meet a dropped state that still owes frames.
  predicate Remembered(w: World, e: Event) {
    e.Unowned? ==> w.core.state.Some? || Undrained(w) == 0
  }

  lemma DrainKeeps(w: World, m: Marker, cfg: Config)
    requires cfg.Valid() && Inv(w, cfg)
    ensures Inv(After(w, Drain(m), cfg), cfg)
  {
    var i, drained := w.target.instance, Max(w.drained, m.lastDrain);
    LaterSpaced(w.era, i, w.drained, drained, cfg);
    LaterDrain(w.era, i, w.drained, drained);
    RetryGrows(cfg, Owed(w.era, i, drained), Owed(w.era, i, w.drained));
  }

  lemma InvStep(w: World, e: Event, cfg: Config)
    requires cfg.Valid() && Inv(w, cfg) && Possible(w, e) && Remembered(w, e)
    ensures Inv(After(w, e, cfg), cfg)
  {
    match e
    case Scan(p) => ScanKeeps(w, p, cfg);
    case Drain(m) => DrainKeeps(w, m, cfg);
    case _ =>
  }

  predicate Initial(w: World) {
    w.core.state.None? && w.core.disk.journals == [] && w.past == [] && w.era == [] && w.target == BLANK &&
    w.core.disk.marker.lastDrain <= w.drained
  }

  ghost predicate Leads(w: World, es: seq<Event>, v: World, cfg: Config)
    requires cfg.Valid()
    decreases |es|
  {
    if es == [] then w == v
    else Possible(w, es[0]) && Remembered(w, es[0]) && Leads(After(w, es[0], cfg), es[1..], v, cfg)
  }

  ghost predicate Reachable(v: World, cfg: Config)
    requires cfg.Valid()
  {
    exists w, es :: Initial(w) && Leads(w, es, v, cfg)
  }

  lemma {:induction false} InvRun(w: World, es: seq<Event>, v: World, cfg: Config)
    requires cfg.Valid() && Inv(w, cfg) && Leads(w, es, v, cfg)
    ensures Inv(v, cfg)
    decreases |es|
  {
    if es != [] {
      InvStep(w, es[0], cfg);
      InvRun(After(w, es[0], cfg), es[1..], v, cfg);
    }
  }

  // Whatever arrives, fails, is dropped or rebuilt: an attempt for the same target
  // waits for the schedule of its undrained frames.
  lemma Invariant5(w: World, p: Pass, cfg: Config)
    requires cfg.Valid() && Reachable(w, cfg) && Possible(w, Scan(p))
    requires p.target == w.target && Undrained(w) > 0 && Added(w, p, cfg) != []
    ensures p.now >= LastFrame(w) + cfg.RetryAfter(Undrained(w))
  {
    var v, es :| Initial(v) && Leads(v, es, w, cfg);
    InvRun(v, es, w, cfg);
    ScanKeeps(w, p, cfg);
  }

  // A live schedule never counts fewer frames than a replay of the journals would.
  lemma LiveCountsAll(w: World, cfg: Config)
    requires cfg.Valid() && Reachable(w, cfg) && w.core.state.Some?
    ensures w.core.state.value.outstanding >= Undrained(w)
  {
    var v, es :| Initial(v) && Leads(v, es, w, cfg);
    InvRun(v, es, w, cfg);
  }

  lemma DefaultsValid()
    ensures Defaults().Valid()
  {
  }

  // ------------------------------------- where the promise stops being kept

  function Ring(w: World, now: int): Pass {
    Pass(now, w.target, "", true, Unchanged, true)
  }

  // An unowned scan of a dropped state makes a state that remembers no frame; the
  // owner's next scan then rings at once.
  lemma BlankStateRings(w: World, digest: string, now: int, cfg: Config)
    requires cfg.Valid() && w.core.state.None? && 0 < now
    ensures var v := After(w, Unowned(digest), cfg); var p := Ring(w, now).(digest := digest);
      |Added(v, p, cfg)| == 1 && Added(v, p, cfg)[0].written && Added(v, p, cfg)[0].at == now
  {
    var v, p := After(w, Unowned(digest), cfg), Ring(w, now).(digest := digest);
    var s := NewState(digest).(target := w.target);
    assert Aimed(v.core, p, cfg).0 == s;
  }

  // After the scan, no next scan for the same target can ring too early.
  ghost predicate NextScanWaits(w: World, cfg: Config)
    requires cfg.Valid()
  {
    forall p :: Possible(w, Scan(p)) && p.target == w.target && Undrained(w) > 0 && Added(w, p, cfg) != [] ==> p.now >= Due(w, cfg)
  }

  // An unowned scan keeps the promise exactly when a state is live or nothing is
  // owed (given there is still time to ring before the schedule is due).
  lemma UnownedScanExact(w: World, digest: string, cfg: Config)
    requires cfg.Valid() && Inv(w, cfg) && 0 <= w.now && w.target.instance != ""
    requires Undrained(w) > 0 ==> w.now + 1 < Due(w, cfg)
    ensures NextScanWaits(After(w, Unowned(digest), cfg), cfg) <==> w.core.state.Some? || Undrained(w) == 0
  {
    var v := After(w, Unowned(digest), cfg);
    if w.core.state.Some? || Undrained(w) == 0 {
      InvStep(w, Unowned(digest), cfg);
      forall p | Possible(v, Scan(p)) && p.target == v.target && Undrained(v) > 0 && Added(v, p, cfg) != []
        ensures p.now >= Due(v, cfg)
      {
        ScanKeeps(v, p, cfg);
      }
    } else {
      BlankStateRings(w, digest, w.now + 1, cfg);
      var p := Ring(w, w.now + 1).(digest := digest);
      assert Possible(v, Scan(p)) && Added(v, p, cfg) != [];
    }
  }

  function NewWorld(): World {
    World(Core(None, Disk([], {}, Marker("", 0), None, None)), 0, BLANK, [], [], 0)
  }

  // A new conduit's first scan rings.
  lemma FirstScan(p: Pass)
    requires p == Pass(SECOND, Target("s", 1, "t"), p.digest, true, Unchanged, true)
    ensures After(NewWorld(), Scan(p), Defaults()).era == [Journal(SECOND, "s", true, 1, p.digest)]
  {
    var (s, d) := Aimed(NewWorld().core, p, Defaults());
    assert s == NewState(p.digest).(target := p.target);
    OneAdded(NewWorld(), p, Journal(SECOND, "s", true, 1, p.digest), Defaults());
  }

  lemma OneOwed(j: Journal, drained: int)
    requires j.written && drained < Unix(j.at)
    ensures Owed([j], j.instance, drained) == 1 && LastOwed([j], j.instance, drained) == j.at
  {
    var none: seq<Journal> := [];
    assert [j][..|[j]| - 1] == none;
    assert Owed(none, j.instance, drained) == 0;
  }

  // A restart forgets only the live state.
  lemma FirstRing(digest: string) returns (w: World)
    ensures Reachable(w, Defaults()) && w.core.state.None? && w.now == SECOND && w.target == Target("s", 1, "t")
    ensures Undrained(w) == 1 && LastFrame(w) == SECOND
  {
    var cfg, p := Defaults(), Pass(SECOND, Target("s", 1, "t"), digest, true, Unchanged, true);
    FirstScan(p);
    var v := After(NewWorld(), Scan(p), cfg);
    w := After(v, Restart, cfg);
    assert Leads(v, [Restart], w, cfg) by { assert Leads(w, [], w, cfg); }
    assert [Scan(p), Restart][1..] == [Restart];
    assert Leads(NewWorld(), [Scan(p), Restart], w, cfg);
    OneOwed(w.era[0], w.drained);
  }

  // The concrete run: frame, restart, one unowned scan, and a second frame for the
  // same process two seconds later instead of ten minutes.
  lemma EarlyFrame(digest: string) returns (w: World, p: Pass)
    ensures Reachable(w, Defaults()) && Undrained(w) == 1
    ensures var v := After(w, Unowned(digest), Defaults());
      && Possible(v, Scan(p)) && p.target == w.target && |Added(v, p, Defaults())| == 1 && Added(v, p, Defaults())[0].written
    ensures p.now == 3 * SECOND && Due(w, Defaults()) == SECOND + 10 * MINUTE
  {
    w := FirstRing(digest);
    BlankStateRings(w, digest, 3 * SECOND, Defaults());
    p := Ring(w, 3 * SECOND).(digest := digest);
  }
}
