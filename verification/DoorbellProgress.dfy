/**
  The other half of the doorbell's promise (link/conduit.go): not only is no frame
  early, a pass rings exactly when the schedule lets it, and the schedule always does
  before long.
*/
module DoorbellProgress {
  import opened Doorbell
  import opened DoorbellSafety
  import opened Wrappers

  // ------------------------------------------------------- when a pass attempts

  // The session has ended no turn, or one not before the second of the last frame.
  predicate TurnOver(turn: Option<int>, lastFrame: int) {
    turn.None? || turn.value >= Unix(lastFrame)
  }

  // The target still is what it was when looked at again; nobody looks again at one
  // that could not be verified.
  predicate StillThere(p: Pass) { p.verified ==> p.recheck == Unchanged }

  // The marker tells of an inbox read the state has not heard of, at or after the
  // second of its last frame.
  predicate JustDrained(s: State, m: Marker) {
    s.outstanding > 0 && m.token != s.token && m.lastDrain >= Unix(s.outstandingWritten)
  }

  // At least the first backoff step since the last attempt, if there was one.
  predicate Rested(s: State, now: int, cfg: Config)
    requires cfg.Valid()
  {
    s.lastAttempt == 0 || now - s.lastAttempt >= cfg.backoff[0]
  }

  // A pass over a live state of the same process attempts a frame if and only if its
  // time has come: at once after a drain, else at the scheduled time and not within a
  // turn; a new queue digest waits for nothing but the first backoff step, once no
  // frame is outstanding.
  lemma LiveRingsExact(w: World, p: Pass, cfg: Config)
    requires cfg.Valid() && Possible(w, Scan(p)) && w.core.state.Some?
    requires w.core.state.value.target == p.target || w.core.state.value.target == BLANK
    ensures var s, d := w.core.state.value, w.core.disk;
      var owed := s.outstanding > 0 && !JustDrained(s, d.marker);
      |Added(w, p, cfg)| == 1 <==>
        && StillThere(p)
        && (owed ==> s.nextAttempt <= p.now && TurnOver(d.turn, s.outstandingWritten))
        && (!owed && s.digest != p.digest ==> Rested(s, p.now, cfg))
        && (!owed && s.digest == p.digest && !JustDrained(s, d.marker) ==> s.nextAttempt <= p.now)
  {
    NotifiedAttempts(w, p, cfg);
  }

  // For another process the schedule begins anew.
  lemma NewTargetRingsExact(w: World, p: Pass, cfg: Config)
    requires cfg.Valid() && Possible(w, Scan(p)) && w.core.state.Some?
    requires w.core.state.value.target != p.target && w.core.state.value.target != BLANK
    ensures |Added(w, p, cfg)| == 1 <==> StillThere(p) && Rested(w.core.state.value, p.now, cfg)
  {
    NotifiedAttempts(w, p, cfg);
  }

  // A dropped state is rebuilt: the pass attempts a frame if and only if the journals
  // and the drain marker leave nothing to wait for.
  lemma DroppedRingsExact(w: World, p: Pass, cfg: Config)
    requires cfg.Valid() && Possible(w, Scan(p)) && w.core.state.None? && 0 <= p.now
    requires var d, i := w.core.disk, p.target.instance;
      i in d.dirs && Latest(d.journals, i).Some? ==> Latest(d.journals, i).value.written || LatestFailed(d, i)
    ensures var d, i := w.core.disk, p.target.instance;
      var k, last := Owed(d.journals, i, d.marker.lastDrain), LastOwed(d.journals, i, d.marker.lastDrain);
      if i !in d.dirs || Latest(d.journals, i).None? then |Added(w, p, cfg)| == 1 <==> StillThere(p)
      else if Latest(d.journals, i).value.written then
        |Added(w, p, cfg)| == 1 <==> StillThere(p) && (k > 0 ==> last + cfg.RetryAfter(k) <= p.now && TurnOver(d.turn, last))
      else
        var j := Latest(d.journals, i).value;
        |Added(w, p, cfg)| == 1 <==> StillThere(p) && j.at + cfg.Backoff(j.index) <= p.now && (k > 0 ==> TurnOver(d.turn, last))
  {
    NotifiedAttempts(w, p, cfg);
    RestoredWaits(w.core.disk, p.target.instance, p.digest, cfg);
  }

  // The latest attempt failed, after every frame this inbox remembers.
  predicate LatestFailed(d: Disk, instance: string) {
    var latest := Latest(d.journals, instance);
    && latest.Some? && !latest.value.written
    && (forall j :: j in d.journals && j.instance == instance && j.written ==> j.at < latest.value.at)
    && (d.sidecar.Some? ==> d.sidecar.value.lastWritten * SECOND < latest.value.at) && 0 < latest.value.at
  }

  lemma {:induction false} ReplayedWritten(s: State, js: seq<Journal>, instance: string, lastDrain: int, current: bool, at: int)
    requires s.lastWritten < at && forall j :: j in js && j.instance == instance && j.written ==> j.at < at
    ensures Replayed(s, js, instance, lastDrain, current).lastWritten < at
  {
    if js != [] {
      ReplayedWritten(s, js[..|js| - 1], instance, lastDrain, current, at);
      assert js[|js| - 1] in js;
    }
  }

  lemma {:induction false} ReplayedKeeps(s: State, js: seq<Journal>, instance: string, lastDrain: int, current: bool)
    ensures var r := Replayed(s, js, instance, lastDrain, current);
      r.nextAttempt == s.nextAttempt && r.token == s.token && r.digest == s.digest && r.target == s.target
    ensures var r := Replayed(s, js, instance, lastDrain, current);
      match Latest(js, instance) case None => r == s case Some(j) => r.lastAttempt == j.at
  {
    if js != [] {
      ReplayedKeeps(s, js[..|js| - 1], instance, lastDrain, current);
    }
  }

  // The number of the last attempt for this queue, and the frames written for it.
  function LastIndex(js: seq<Journal>, instance: string, digest: string): nat {
    if js == [] then 0
    else
      var j := js[|js| - 1];
      if j.instance == instance && j.generation == digest then j.index else LastIndex(js[..|js| - 1], instance, digest)
  }

  function Frames(js: seq<Journal>, instance: string, digest: string): nat {
    if js == [] then 0
    else
      var j := js[|js| - 1];
      Frames(js[..|js| - 1], instance, digest) + if j.instance == instance && j.generation == digest && j.written then 1 else 0
  }

  lemma {:induction false} ReplayedFrames(s: State, js: seq<Journal>, instance: string, lastDrain: int, current: bool)
    requires s.attemptIndex == 0
    ensures var r := Replayed(s, js, instance, lastDrain, current);
      r.digest == s.digest && r.attemptIndex == LastIndex(js, instance, s.digest) &&
      r.rings == if current then s.rings else s.rings + Frames(js, instance, s.digest)
  {
    if js != [] {
      ReplayedFrames(s, js[..|js| - 1], instance, lastDrain, current);
    }
  }

  // A rebuilt state goes on counting where it was: the attempts for this queue from
  // the journals, its frames from the sidecar if that is about this queue, else from
  // the journals too.
  lemma RestoredCounts(d: Disk, instance: string, digest: string, cfg: Config)
    requires cfg.Valid() && instance in d.dirs
    ensures var s := Restored(d, instance, digest, cfg).0;
      && s.attemptIndex == LastIndex(d.journals, instance, digest)
      && s.rings == if d.sidecar.Some? && d.sidecar.value.generation == digest then d.sidecar.value.rings else Frames(d.journals, instance, digest)
  {
    var from, current := FromSidecar(d, digest), SidecarCurrent(d, digest);
    ReplayedFrames(from, d.journals, instance, d.marker.lastDrain, current);
    ReplayedKeeps(from, d.journals, instance, d.marker.lastDrain, current);
  }

  // What a rebuilt state waits for.
  lemma RestoredWaits(d: Disk, instance: string, digest: string, cfg: Config)
    requires cfg.Valid()
    ensures var s := Restored(d, instance, digest, cfg).0;
      s.token == d.marker.token && s.digest == digest && s.target == BLANK
    ensures var s := Restored(d, instance, digest, cfg).0;
      var k, last := Owed(d.journals, instance, d.marker.lastDrain), LastOwed(d.journals, instance, d.marker.lastDrain);
      if instance !in d.dirs || Latest(d.journals, instance).None? then s.outstanding == 0 && s.nextAttempt == 0 && s.lastAttempt == 0
      else
        var j := Latest(d.journals, instance).value;
        && s.outstanding == k && s.outstandingWritten == last && s.lastAttempt == j.at
        && (j.written ==> s.nextAttempt == if k > 0 then last + cfg.RetryAfter(k) else 0)
        && (LatestFailed(d, instance) ==> s.nextAttempt == j.at + cfg.Backoff(j.index))
        && (s.nextAttempt == 0 || s.nextAttempt == j.at + cfg.Backoff(j.index) || (k > 0 && s.nextAttempt == last + cfg.RetryAfter(k)))
  {
    var from, current := FromSidecar(d, digest), SidecarCurrent(d, digest);
    ReplayCounts(from, d.journals, instance, d.marker.lastDrain, current);
    ReplayedKeeps(from, d.journals, instance, d.marker.lastDrain, current);
    if LatestFailed(d, instance) {
      ReplayedWritten(from, d.journals, instance, d.marker.lastDrain, current, Latest(d.journals, instance).value.at);
    }
  }

  // The pass in terms of the state it aims at.
  lemma NotifiedAttempts(w: World, p: Pass, cfg: Config)
    requires cfg.Valid() && Possible(w, Scan(p))
    ensures var (s, d) := Aimed(w.core, p, cfg);
      var owed := s.outstanding > 0 && !JustDrained(s, d.marker);
      |Added(w, p, cfg)| == 1 <==>
        && StillThere(p)
        && (owed ==> s.nextAttempt <= p.now && TurnOver(d.turn, s.outstandingWritten))
        && (!owed && s.digest != p.digest ==> Rested(s, p.now, cfg))
        && (!owed && s.digest == p.digest && !JustDrained(s, d.marker) ==> s.nextAttempt <= p.now)
  {
    var (s, d) := Aimed(w.core, p, cfg);
    var (s', d') := Digested(Heard(s, d.marker, p.now), d, p.digest, p.now, cfg);
    assert cfg.backoff[0] > 0;
    if !Held(s', d'.turn, p.now) {
      AttemptShape(s', d', p, cfg);
    }
  }

  // ------------------------------------------------------ what an attempt leaves

  // The journal of an attempt tells when, for whom, for which queue and with what
  // result; a written frame is owed, and the next one waits for the delay of all that
  // are owed; a failure waits for its backoff.
  lemma AttemptLeaves(w: World, p: Pass, cfg: Config)
    requires cfg.Valid() && Possible(w, Scan(p)) && |Added(w, p, cfg)| == 1
    ensures var j, (s, d) := Added(w, p, cfg)[0], Aimed(w.core, p, cfg);
      && j.at == p.now && j.instance == p.target.instance && j.generation == p.digest && j.written == (p.verified && p.delivered)
      && j.index == (if s.digest == p.digest then s.attemptIndex + 1 else 1)
    ensures var j, c := Added(w, p, cfg)[0], After(w, Scan(p), cfg).core;
      && c.state.Some? && c.state.value.target == p.target && c.state.value.lastAttempt == p.now
      && c.disk.journals == w.core.disk.journals + [j] && p.target.instance in c.disk.dirs
      && if j.written
         then c.state.value.outstanding >= 1 && c.state.value.outstandingWritten == p.now
              && c.state.value.nextAttempt == p.now + cfg.RetryAfter(c.state.value.outstanding)
         else c.state.value.nextAttempt == p.now + cfg.Backoff(j.index)
    ensures var s, c := Aimed(w.core, p, cfg).0, After(w, Scan(p), cfg).core;
      Added(w, p, cfg)[0].written ==>
        && c.state.value.rings == (if s.digest == p.digest then s.rings + 1 else 1)
        && c.disk.sidecar == Some(Sidecar(p.digest, c.state.value.rings, Unix(p.now)))
    ensures var s, c := Aimed(w.core, p, cfg).0, After(w, Scan(p), cfg).core;
      var owed := if JustDrained(s, w.core.disk.marker) then 0 else s.outstanding;
      c.state.value.outstanding == if Added(w, p, cfg)[0].written then owed + 1 else owed
  {
    var (s, d) := Aimed(w.core, p, cfg);
    var (s', d') := Digested(Heard(s, d.marker, p.now), d, p.digest, p.now, cfg);
    AimKeepsDisk(w, p, cfg);
    AttemptShape(s', d', p, cfg);
    var s1 := s'.(attemptIndex := s'.attemptIndex + 1);
    OneAdded(w, p, Journal(p.now, p.target.instance, p.verified && p.delivered, s1.attemptIndex, p.digest), cfg);
  }

  lemma AimKeepsDisk(w: World, p: Pass, cfg: Config)
    requires cfg.Valid()
    ensures var d := Aimed(w.core, p, cfg).1; d == w.core.disk.(sidecar := d.sidecar)
  {
  }

  // ------------------------------------------------------------ it rings in time

  predicate AtMost(delays: seq<int>, most: int) { forall i :: 0 <= i < |delays| ==> delays[i] <= most }

  // Nothing is scheduled further off than the longest delay.
  predicate Timely(w: World, most: int) {
    && (forall j :: j in w.core.disk.journals ==> j.at <= Max(w.now, 0))
    && (w.core.state.Some? ==>
          var s := w.core.state.value;
          s.nextAttempt <= Max(w.now, 0) + most && s.lastAttempt <= Max(w.now, 0) && s.outstandingWritten <= Max(w.now, 0))
  }

  lemma {:induction false} LastOwedIn(js: seq<Journal>, instance: string, drained: int, now: int)
    requires 0 <= now && forall j :: j in js ==> j.at <= now
    ensures LastOwed(js, instance, drained) <= now
  {
    if js != [] {
      LastOwedIn(js[..|js| - 1], instance, drained, now);
      assert js[|js| - 1] in js;
    }
  }

  lemma {:induction false} LatestIn(js: seq<Journal>, instance: string)
    ensures Latest(js, instance).Some? ==> Latest(js, instance).value in js
  {
    if js != [] && js[|js| - 1].instance != instance {
      LatestIn(js[..|js| - 1], instance);
    }
  }

  // The state a pass aims at is timely, rebuilt or not.
  lemma AimTimely(w: World, p: Pass, cfg: Config, most: int)
    requires cfg.Valid() && Timely(w, most) && AtMost(cfg.retry, most) && AtMost(cfg.backoff, most) && w.now < p.now
    ensures var s := Aimed(w.core, p, cfg).0; var now := Max(w.now, 0);
      (s.nextAttempt <= now + most || s.nextAttempt <= p.now) && s.lastAttempt <= now && s.outstandingWritten <= now
  {
    var d := w.core.disk;
    assert 0 < cfg.retry[0] <= most && cfg.backoff[0] <= most;
    if w.core.state.None? {
      RestoredWaits(d, p.target.instance, p.digest, cfg);
      LastOwedIn(d.journals, p.target.instance, d.marker.lastDrain, Max(w.now, 0));
      LatestIn(d.journals, p.target.instance);
    }
  }

  lemma ScanTimely(w: World, p: Pass, cfg: Config, most: int)
    requires cfg.Valid() && Timely(w, most) && AtMost(cfg.retry, most) && AtMost(cfg.backoff, most) && Possible(w, Scan(p))
    ensures Timely(After(w, Scan(p), cfg), most)
  {
    AimTimely(w, p, cfg, most);
    AimKeepsDisk(w, p, cfg);
    var (s, d) := Aimed(w.core, p, cfg);
    var (s', d') := Digested(Heard(s, d.marker, p.now), d, p.digest, p.now, cfg);
    if !Held(s', d'.turn, p.now) {
      AttemptShape(s', d', p, cfg);
    }
  }

  lemma StepTimely(w: World, e: Event, cfg: Config, most: int)
    requires cfg.Valid() && Timely(w, most) && AtMost(cfg.retry, most) && AtMost(cfg.backoff, most) && Possible(w, e)
    ensures Timely(After(w, e, cfg), most)
  {
    match e
    case Scan(p) => ScanTimely(w, p, cfg, most);
    case _ => assert cfg.retry[0] <= most && 0 < cfg.retry[0];
  }

  // Any run, unowned scans at any time included.
  ghost predicate Goes(w: World, es: seq<Event>, v: World, cfg: Config)
    requires cfg.Valid()
    decreases |es|
  {
    if es == [] then w == v else Possible(w, es[0]) && Goes(After(w, es[0], cfg), es[1..], v, cfg)
  }

  lemma {:induction false} RunTimely(w: World, es: seq<Event>, v: World, cfg: Config, most: int)
    requires cfg.Valid() && Timely(w, most) && AtMost(cfg.retry, most) && AtMost(cfg.backoff, most) && Goes(w, es, v, cfg)
    ensures Timely(v, most)
    decreases |es|
  {
    if es != [] {
      StepTimely(w, es[0], cfg, most);
      RunTimely(After(w, es[0], cfg), es[1..], v, cfg, most);
    }
  }

  lemma UnixGrows(a: int, b: int)
    requires a <= b
    ensures Unix(a) <= Unix(b)
  {
  }

  // Whatever has happened, a pass that comes the longest delay after the last event,
  // for whatever process and queue, finds its time come: if the session is in no turn
  // begun before, and the target is verified, still there and writable, it writes a
  // frame.
  lemma RingsInTime(w: World, es: seq<Event>, v: World, p: Pass, cfg: Config, most: int)
    requires cfg.Valid() && AtMost(cfg.retry, most) && AtMost(cfg.backoff, most)
    requires Initial(w) && Goes(w, es, v, cfg) && Possible(v, Scan(p)) && p.now >= Max(v.now, 0) + most
    requires TurnOver(v.core.disk.turn, Max(v.now, 0)) && p.verified && p.recheck == Unchanged && p.delivered
    ensures |Added(v, p, cfg)| == 1 && Added(v, p, cfg)[0].written && Added(v, p, cfg)[0].at == p.now
  {
    RunTimely(w, es, v, cfg, most);
    AimTimely(v, p, cfg, most);
    AimKeepsDisk(v, p, cfg);
    UnixGrows(Aimed(v.core, p, cfg).0.outstandingWritten, Max(v.now, 0));
    assert 0 < cfg.retry[0] <= most && cfg.backoff[0] <= most;
    NotifiedAttempts(v, p, cfg);
    AttemptLeaves(v, p, cfg);
  }
}
