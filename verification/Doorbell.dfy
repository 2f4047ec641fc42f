/**
  The doorbell of link/conduit.go for one identity: when a session is told that
  its inbox holds mail. The schedule lives in memory (`State`), is dropped when the
  inbox empties or the conduit restarts, and is rebuilt from the delivery journals
  and the inbox-read marker.

  Times are nanoseconds; 0 stands for the zero time, every clock reading is positive.
*/
module Doorbell {
  import opened Wrappers

  const SECOND := 1_000_000_000
  const MINUTE := 60 * SECOND

  function Unix(t: int): int { t / SECOND }

  // The two schedules: between frames that nobody consumes, and after failures.
  datatype Config = Config(retry: seq<int>, backoff: seq<int>)
  {
    // What a configured schedule must be to be used at all.
    predicate Usable() {
      && retry != [] && backoff != []
      && (forall i :: 0 <= i < |retry| ==> 0 < retry[i])
      && (forall i :: 0 <= i < |backoff| ==> 0 < backoff[i])
    }

    predicate Valid() {
      Usable() && forall i, j :: 0 <= i <= j < |retry| ==> retry[i] <= retry[j]
    }

    function RetryAfter(outstanding: int): (d: int)
      requires Usable()
      ensures 0 < d
    {
      retry[Clamp(outstanding - 1, |retry|)]
    }

    function Backoff(attempt: int): (d: int)
      requires Usable()
      ensures 0 < d
    {
      backoff[Clamp(attempt - 1, |backoff|)]
    }
  }

  function Clamp(index: int, length: int): (i: int)
    requires 0 < length
    ensures 0 <= i < length
  {
    if index < 0 then 0 else if index >= length then length - 1 else index
  }

  function Defaults(): Config {
    Config([10 * MINUTE, 20 * MINUTE, 40 * MINUTE, 80 * MINUTE, 160 * MINUTE, 320 * MINUTE],
           [SECOND / 10, 3 * SECOND / 10, SECOND, 3 * SECOND, 10 * SECOND, 30 * SECOND])
  }

  lemma RetryGrows(cfg: Config, a: int, b: int)
    requires cfg.Valid() && a <= b
    ensures cfg.RetryAfter(a) <= cfg.RetryAfter(b)
  {
    assert Clamp(a - 1, |cfg.retry|) <= Clamp(b - 1, |cfg.retry|);
  }

  // More outstanding frames never mean a shorter delay, if and only if the schedule
  // itself never shrinks.
  lemma RetryGrowsExact(cfg: Config)
    requires cfg.Usable()
    ensures (forall a, b :: a <= b ==> cfg.RetryAfter(a) <= cfg.RetryAfter(b)) <==> cfg.Valid()
  {
    if cfg.Valid() {
      forall a, b | a <= b
        ensures cfg.RetryAfter(a) <= cfg.RetryAfter(b)
      {
        RetryGrows(cfg, a, b);
      }
    } else {
      var i, j :| 0 <= i <= j < |cfg.retry| && cfg.retry[i] > cfg.retry[j];
      assert cfg.RetryAfter(i + 1) > cfg.RetryAfter(j + 1);
    }
  }

  // The process a frame is for; the blank target is the one of a state nobody owns.
  datatype Target = Target(instance: string, pid: int, start: string)

  const BLANK := Target("", 0, "")

  datatype State = State(
    digest: string, attemptIndex: nat, rings: nat, outstanding: nat, outstandingWritten: int,
    target: Target, lastAttempt: int, lastWritten: int, nextAttempt: int, token: string, failures: nat)

  function NewState(digest: string): State {
    State(digest, 0, 0, 0, 0, BLANK, 0, 0, 0, "", 0)
  }

  // One recorded delivery attempt.
  datatype Journal = Journal(at: int, instance: string, written: bool, index: nat, generation: string)

  // The inbox-read marker: a fresh token and a Unix second per drain.
  datatype Marker = Marker(token: string, lastDrain: int)

  datatype Sidecar = Sidecar(generation: string, rings: nat, lastWritten: int)

  // `journals` are those of this boot, in the order of their times.
  datatype Disk = Disk(journals: seq<Journal>, dirs: set<string>, marker: Marker, turn: Option<int>, sidecar: Option<Sidecar>)

  datatype Core = Core(state: Option<State>, disk: Disk)

  function SidecarOf(s: State): Sidecar {
    Sidecar(s.digest, s.rings, if s.lastWritten == 0 then 0 else Unix(s.lastWritten))
  }

  // ------------------------------------------------------------- restoreState

  function FromSidecar(d: Disk, digest: string): State {
    var s := NewState(digest).(token := d.marker.token);
    match d.sidecar
    case None => s
    case Some(c) =>
      s.(lastWritten := if c.lastWritten > 0 then c.lastWritten * SECOND else 0,
         rings := if c.generation == digest then c.rings else 0)
  }

  predicate SidecarCurrent(d: Disk, digest: string) {
    d.sidecar.Some? && d.sidecar.value.generation == digest
  }

  // What one journal adds while the journals are replayed in order.
  function Replay(s: State, j: Journal, lastDrain: int, current: bool): State {
    var s := s.(lastAttempt := j.at, attemptIndex := if j.generation == s.digest then j.index else s.attemptIndex);
    if !j.written then s.(failures := s.failures + 1)
    else
      var owed := lastDrain < Unix(j.at);
      s.(failures := 0,
         lastWritten := if s.lastWritten == 0 || j.at > s.lastWritten then j.at else s.lastWritten,
         outstanding := if owed then s.outstanding + 1 else s.outstanding,
         outstandingWritten := if owed then j.at else s.outstandingWritten,
         rings := if !current && j.generation == s.digest then s.rings + 1 else s.rings)
  }

  function Replayed(s: State, js: seq<Journal>, instance: string, lastDrain: int, current: bool): State {
    if js == [] then s
    else
      var before := Replayed(s, js[..|js| - 1], instance, lastDrain, current);
      if js[|js| - 1].instance != instance then before else Replay(before, js[|js| - 1], lastDrain, current)
  }

  // The last journal of the instance.
  function Latest(js: seq<Journal>, instance: string): Option<Journal> {
    if js == [] then None
    else if js[|js| - 1].instance == instance then Some(js[|js| - 1])
    else Latest(js[..|js| - 1], instance)
  }

  // When the restored schedule lets the next attempt happen.
  function Resumed(s: State, latest: Journal, cfg: Config): State
    requires cfg.Valid()
  {
    if !latest.written && (s.lastWritten == 0 || latest.at > s.lastWritten)
    then s.(nextAttempt := latest.at + cfg.Backoff(latest.index))
    else if s.outstanding > 0 then s.(nextAttempt := s.outstandingWritten + cfg.RetryAfter(s.outstanding))
    else s
  }

  function Restored(d: Disk, instance: string, digest: string, cfg: Config): (State, Disk)
    requires cfg.Valid()
  {
    var s := FromSidecar(d, digest);
    if instance !in d.dirs then (s, if SidecarCurrent(d, digest) then d else d.(sidecar := Some(SidecarOf(s))))
    else
      match Latest(d.journals, instance)
      case None => (s, d)
      case Some(latest) =>
        var s := Resumed(Replayed(s, d.journals, instance, d.marker.lastDrain, SidecarCurrent(d, digest)), latest, cfg);
        (s, d.(sidecar := Some(SidecarOf(s))))
  }

  // -------------------------------------------------------------- maybeNotify

  datatype Recheck = Unchanged | Changed | Emptied

  // One scan of a non-empty inbox with a live owner, and what the world answers.
  datatype Pass = Pass(now: int, target: Target, digest: string, verified: bool, recheck: Recheck, delivered: bool)

  function Soonest(s: State, now: int, cfg: Config): int
    requires cfg.Valid()
  {
    if s.lastAttempt == 0 || now - s.lastAttempt >= cfg.backoff[0] then now else s.lastAttempt + cfg.backoff[0]
  }

  function Aimed(c: Core, p: Pass, cfg: Config): (State, Disk)
    requires cfg.Valid()
  {
    if c.state.None? then
      var (s, d) := Restored(c.disk, p.target.instance, p.digest, cfg);
      (s.(target := p.target), d)
    else
      var s := c.state.value;
      if s.target == BLANK then (s.(target := p.target), c.disk)
      else if s.target == p.target then (s, c.disk)
      else
        (s.(target := p.target, attemptIndex := 0, outstanding := 0, outstandingWritten := 0, failures := 0,
            nextAttempt := Soonest(s, p.now, cfg)), c.disk)
  }

  // A drain at or after the second of the last unconsumed frame consumes them all.
  function Heard(s: State, m: Marker, now: int): State {
    var s' := if s.outstanding > 0 && m.token != s.token && m.lastDrain >= Unix(s.outstandingWritten)
              then s.(outstanding := 0, outstandingWritten := 0, nextAttempt := now) else s;
    s'.(token := m.token)
  }

  function Digested(s: State, d: Disk, digest: string, now: int, cfg: Config): (State, Disk)
    requires cfg.Valid()
  {
    if s.digest == digest then (s, d)
    else
      var s := s.(digest := digest, attemptIndex := 0, rings := 0,
                  nextAttempt := if s.outstanding == 0 then Soonest(s, now, cfg) else s.nextAttempt);
      (s, d.(sidecar := Some(SidecarOf(s))))
  }

  predicate Held(s: State, turn: Option<int>, now: int) {
    now < s.nextAttempt || (s.outstanding > 0 && turn.Some? && turn.value < Unix(s.outstandingWritten))
  }

  function Written(s: State, now: int, cfg: Config): State
    requires cfg.Valid()
  {
    s.(lastAttempt := now, failures := 0, lastWritten := now, outstandingWritten := now, rings := s.rings + 1,
       outstanding := s.outstanding + 1, nextAttempt := now + cfg.RetryAfter(s.outstanding + 1))
  }

  function Failed(s: State, now: int, cfg: Config): State
    requires cfg.Valid()
  {
    s.(lastAttempt := now, nextAttempt := now + cfg.Backoff(s.attemptIndex), failures := s.failures + 1)
  }

  function Attempted(s: State, d: Disk, p: Pass, cfg: Config): Core
    requires cfg.Valid()
  {
    var s := s.(attemptIndex := s.attemptIndex + 1);
    if p.verified && p.recheck == Emptied then Core(None, d)
    else if p.verified && p.recheck == Changed then Core(Some(s), d)
    else
      var ok := p.verified && p.delivered;
      var d := d.(journals := d.journals + [Journal(p.now, p.target.instance, ok, s.attemptIndex, p.digest)],
                  dirs := d.dirs + {p.target.instance});
      if ok then Core(Some(Written(s, p.now, cfg)), d.(sidecar := Some(SidecarOf(Written(s, p.now, cfg)))))
      else Core(Some(Failed(s, p.now, cfg)), d)
  }

  function Notified(c: Core, p: Pass, cfg: Config): Core
    requires cfg.Valid()
  {
    var (s, d) := Aimed(c, p, cfg);
    var (s, d) := Digested(Heard(s, d.marker, p.now), d, p.digest, p.now, cfg);
    if Held(s, d.turn, p.now) then Core(Some(s), d) else Attempted(s, d, p, cfg)
  }

  // observeQueueDigest with no instance: the scan of an inbox nobody live owns.
  function Observed(c: Core, digest: string): Core {
    var s := if c.state.None? then NewState(digest) else c.state.value;
    var s' := if s.digest == digest then s else s.(digest := digest, attemptIndex := 0, rings := 0);
    Core(Some(s'), if c.state.None? || s'.digest != s.digest then c.disk.(sidecar := Some(SidecarOf(s'))) else c.disk)
  }

  // --------------------------------------------------------- the imperative form

  class NotifierState {
    var pendingDigest: string
    var attemptIndex: nat
    var notificationsSent: nat
    var outstandingNotifications: nat
    var outstandingWritten: int
    var target: Target
    var lastAttempt: int
    var lastWritten: int
    var nextAttempt: int
    var lastInboxReadToken: string
    var failures: nat

    constructor (digest: string)
      ensures Value() == NewState(digest)
    {
      pendingDigest := digest;
      attemptIndex, notificationsSent, outstandingNotifications, outstandingWritten := 0, 0, 0, 0;
      target := BLANK;
      lastAttempt, lastWritten, nextAttempt, failures := 0, 0, 0, 0;
      lastInboxReadToken := "";
    }

    ghost function Value(): State
      reads this
    {
      State(pendingDigest, attemptIndex, notificationsSent, outstandingNotifications, outstandingWritten,
            target, lastAttempt, lastWritten, nextAttempt, lastInboxReadToken, failures)
    }

    method SetSoonest(now: int, cfg: Config)
      requires cfg.Valid()
      modifies this`nextAttempt
      ensures Value() == old(Value()).(nextAttempt := Soonest(old(Value()), now, cfg))
    {
      if lastAttempt == 0 || now - lastAttempt >= cfg.backoff[0] {
        nextAttempt := now;
      } else {
        nextAttempt := lastAttempt + cfg.backoff[0];
      }
    }

    method Retarget(t: Target, now: int, cfg: Config)
      requires cfg.Valid()
      modifies this
      ensures Value() == old(Value()).(target := t, attemptIndex := 0, outstanding := 0, outstandingWritten := 0,
                                       failures := 0, nextAttempt := Soonest(old(Value()), now, cfg))
    {
      target := t;
      attemptIndex, outstandingNotifications, outstandingWritten, failures := 0, 0, 0, 0;
      SetSoonest(now, cfg);
    }

    method ReplayJournal(j: Journal, lastDrain: int, sidecarCurrent: bool)
      modifies this
      ensures Value() == Replay(old(Value()), j, lastDrain, sidecarCurrent)
    {
      if !j.written {
        failures := failures + 1;
      } else {
        failures := 0;
        if lastWritten == 0 || j.at > lastWritten {
          lastWritten := j.at;
        }
        if lastDrain < Unix(j.at) {
          outstandingNotifications := outstandingNotifications + 1;
          outstandingWritten := j.at;
        }
        if !sidecarCurrent && j.generation == pendingDigest {
          notificationsSent := notificationsSent + 1;
        }
      }
      if j.generation == pendingDigest {
        attemptIndex := j.index;
      }
      lastAttempt := j.at;
    }

    method HearDrain(m: Marker, now: int)
      modifies this
      ensures Value() == Heard(old(Value()), m, now)
    {
      if outstandingNotifications > 0 && m.token != lastInboxReadToken && m.lastDrain >= Unix(outstandingWritten) {
        outstandingNotifications := 0;
        outstandingWritten := 0;
        nextAttempt := now;
      }
      lastInboxReadToken := m.token;
    }

    method Record(written: bool, now: int, cfg: Config)
      requires cfg.Valid()
      modifies this
      ensures Value() == if written then Written(old(Value()), now, cfg) else Failed(old(Value()), now, cfg)
    {
      lastAttempt := now;
      if written {
        failures := 0;
        lastWritten := now;
        outstandingWritten := now;
        notificationsSent := notificationsSent + 1;
        outstandingNotifications := outstandingNotifications + 1;
        nextAttempt := now + cfg.RetryAfter(outstandingNotifications);
      } else {
        nextAttempt := now + cfg.Backoff(attemptIndex);
        failures := failures + 1;
      }
    }
  }

  class Notifier {
    const cfg: Config
    var state: NotifierState?
    var journals: seq<Journal>
    var dirs: set<string>
    var marker: Marker
    var turn: Option<int>
    var sidecar: Option<Sidecar>

    constructor (cfg: Config)
      requires cfg.Valid()
      ensures this.cfg == cfg && Abs() == Core(None, Disk([], {}, Marker("", 0), None, None))
    {
      this.cfg := cfg;
      state := null;
      journals, dirs, marker, turn, sidecar := [], {}, Marker("", 0), None, None;
    }

    ghost function OnDisk(): Disk
      reads this
    {
      Disk(journals, dirs, marker, turn, sidecar)
    }

    ghost function Abs(): Core
      reads this, state
    {
      Core(if state == null then None else Some(state.Value()), OnDisk())
    }

    method WriteSidecar(s: NotifierState)
      modifies this`sidecar
      ensures sidecar == Some(SidecarOf(s.Value()))
    {
      sidecar := Some(Sidecar(s.pendingDigest, s.notificationsSent, if s.lastWritten == 0 then 0 else Unix(s.lastWritten)));
    }

    // Replays the journals of the instance in order; `latest` is the last of them.
    method ReplayJournals(s: NotifierState, instance: string, current: bool) returns (latest: Option<Journal>)
      modifies s
      ensures s.Value() == Replayed(old(s.Value()), journals, instance, marker.lastDrain, current)
      ensures latest == Latest(journals, instance)
    {
      latest := None;
      var i := 0;
      while i < |journals|
        invariant 0 <= i <= |journals|
        invariant s.Value() == Replayed(old(s.Value()), journals[..i], instance, marker.lastDrain, current)
        invariant latest == Latest(journals[..i], instance)
      {
        assert journals[..i + 1][..i] == journals[..i];
        if journals[i].instance == instance {
          latest := Some(journals[i]);
          s.ReplayJournal(journals[i], marker.lastDrain, current);
        }
        i := i + 1;
      }
      assert journals[..i] == journals;
    }

    method ReadSidecar(digest: string) returns (s: NotifierState, current: bool)
      ensures fresh(s) && s.Value() == FromSidecar(OnDisk(), digest) && current == SidecarCurrent(OnDisk(), digest)
    {
      s := new NotifierState(digest);
      current := false;
      if sidecar.Some? {
        if sidecar.value.lastWritten > 0 {
          s.lastWritten := sidecar.value.lastWritten * SECOND;
        }
        if sidecar.value.generation == digest {
          current := true;
          s.notificationsSent := sidecar.value.rings;
        }
      }
      s.lastInboxReadToken := marker.token;
    }

    method ResumeSchedule(s: NotifierState, latest: Journal)
      requires cfg.Valid()
      modifies s
      ensures s.Value() == Resumed(old(s.Value()), latest, cfg)
    {
      if !latest.written && (s.lastWritten == 0 || latest.at > s.lastWritten) {
        s.nextAttempt := latest.at + cfg.Backoff(latest.index);
      } else if s.outstandingNotifications > 0 {
        s.nextAttempt := s.outstandingWritten + cfg.RetryAfter(s.outstandingNotifications);
      }
    }

    method RestoreState(instance: string, digest: string) returns (s: NotifierState)
      requires cfg.Valid()
      modifies this`sidecar
      ensures fresh(s) && (s.Value(), OnDisk()) == Restored(old(OnDisk()), instance, digest, cfg)
    {
      ghost var disk := OnDisk();
      var current;
      s, current := ReadSidecar(digest);
      if instance !in dirs {
        if !current {
          WriteSidecar(s);
        }
        return;
      }
      var latest := ReplayJournals(s, instance, current);
      if latest.None? {
        NothingReplayed(FromSidecar(disk, digest), journals, instance, marker.lastDrain, current);
        return;
      }
      ResumeSchedule(s, latest.value);
      WriteSidecar(s);
    }

    // The state a pass works on, aimed at the pass's target.
    method Aim(p: Pass)
      requires cfg.Valid()
      modifies this`state, this`sidecar, state
      ensures state != null && (state == old(state) || fresh(state))
      ensures (state.Value(), OnDisk()) == Aimed(old(Abs()), p, cfg)
    {
      if state == null {
        state := RestoreState(p.target.instance, p.digest);
        state.target := p.target;
      } else if state.target == BLANK {
        state.target := p.target;
      } else if state.target != p.target {
        state.Retarget(p.target, p.now, cfg);
      }
    }

    method SeeDigest(digest: string, now: int)
      requires cfg.Valid() && state != null
      modifies this`sidecar, state
      ensures (state.Value(), OnDisk()) == Digested(old(state.Value()), old(OnDisk()), digest, now, cfg)
    {
      if state.pendingDigest != digest {
        state.pendingDigest := digest;
        state.attemptIndex := 0;
        state.notificationsSent := 0;
        if state.outstandingNotifications == 0 {
          state.SetSoonest(now, cfg);
        }
        WriteSidecar(state);
      }
    }

    method Attempt(p: Pass)
      requires cfg.Valid() && state != null
      modifies this, state
      ensures state == null || state == old(state)
      ensures Abs() == Attempted(old(state.Value()), old(OnDisk()), p, cfg)
    {
      state.attemptIndex := state.attemptIndex + 1;
      var written := false;
      if p.verified {
        if p.recheck != Unchanged {
          if p.recheck == Emptied {
            state := null;
          }
          return;
        }
        written := p.delivered;
      }
      journals := journals + [Journal(p.now, p.target.instance, written, state.attemptIndex, p.digest)];
      dirs := dirs + {p.target.instance};
      state.Record(written, p.now, cfg);
      if written {
        WriteSidecar(state);
      }
    }

    method MaybeNotify(p: Pass)
      requires cfg.Valid()
      modifies this, state
      ensures state == null || state == old(state) || fresh(state)
      ensures Abs() == Notified(old(Abs()), p, cfg)
    {
      Aim(p);
      state.HearDrain(marker, p.now);
      SeeDigest(p.digest, p.now);
      if p.now < state.nextAttempt {
        return;
      }
      if state.outstandingNotifications > 0 {
        if turn.Some? && turn.value < Unix(state.outstandingWritten) {
          return;
        }
      }
      Attempt(p);
    }

    // The scan of a non-empty inbox without a live owner.
    method ObserveQueueDigest(digest: string)
      requires cfg.Valid()
      modifies this, state
      ensures state != null && (state == old(state) || fresh(state))
      ensures Abs() == Observed(old(Abs()), digest)
    {
      var changed := false;
      if state == null {
        state := new NotifierState(digest);
        changed := true;
      }
      if state.pendingDigest != digest {
        state.pendingDigest := digest;
        state.attemptIndex := 0;
        state.notificationsSent := 0;
        changed := true;
      }
      if changed {
        WriteSidecar(state);
      }
    }

    // The scan of an empty inbox.
    method Forget()
      modifies this`state
      ensures Abs() == old(Abs()).(state := None)
    {
      state := null;
    }
  }

  lemma {:induction false} NothingReplayed(s: State, js: seq<Journal>, instance: string, lastDrain: int, current: bool)
    requires Latest(js, instance).None?
    ensures Replayed(s, js, instance, lastDrain, current) == s
  {
    if js != [] {
      NothingReplayed(s, js[..|js| - 1], instance, lastDrain, current);
    }
  }
}
