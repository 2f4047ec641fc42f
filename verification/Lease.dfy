/**
  The lease of one identity (link/runtime.go, link/conduit.go): which registered
  session owns it, and the epoch that fences off owners of the past. Sessions
  register, claim, take over, release and are reaped in any interleaving; the
  conduit heals, reclaims, and rings by snapshots that may be stale.
*/
module Lease {
  import opened Wrappers

  datatype Status = Vacant | Owned | Released

  datatype LeaseFile = LeaseFile(boot: string, instance: string, epoch: nat, pid: int, start: string, session: string, status: Status)

  // What reading a missing file gives.
  const ABSENT := LeaseFile("", "", 0, 0, "", "", Vacant)

  datatype Registration = Registration(instance: string, interactive: bool, optIn: bool, session: string, pid: int,
                                       start: string, leaseEpoch: nat, ready: bool, verified: bool)
  {
    predicate Eligible() { interactive || optIn }
  }

  datatype Claim = Refused | Claimed(owner: bool, epoch: nat)

  predicate Owns(l: LeaseFile, boot: string, instance: string) {
    l.boot == boot && l.status == Owned && l.instance == instance
  }

  // The registration of the lease's owner, if it is there and its process lives.
  function LiveOwner(l: LeaseFile, boot: string, regs: map<string, Registration>, alive: set<string>): Option<Registration> {
    if l.boot != boot || l.instance == "" || l.status != Owned then None
    else if l.instance !in regs || l.instance !in alive then None
    else Some(regs[l.instance])
  }

  function Grant(boot: string, reg: Registration, epoch: nat): LeaseFile {
    LeaseFile(boot, reg.instance, epoch, reg.pid, reg.start, reg.session, Owned)
  }

  function Let(l: LeaseFile): LeaseFile {
    l.(instance := "", pid := 0, start := "", session := "", status := Released)
  }

  // The epoch a claim starts from.
  function Base(l: LeaseFile, boot: string): nat {
    if l.boot == boot && l.epoch > 0 then l.epoch else 1
  }

  // claimLease, under the lease lock.
  function Claiming(l: LeaseFile, boot: string, reg: Registration, takeover: bool, live: Option<Registration>): (Claim, LeaseFile) {
    var base := Base(l, boot);
    if takeover then
      if !reg.Eligible() || (!reg.interactive && live.Some? && live.value.interactive) then (Refused, l)
      else
        var epoch := if l.boot == boot && l.epoch > 0 then base + 1 else base;
        (Claimed(true, epoch), Grant(boot, reg, epoch))
    else if Owns(l, boot, reg.instance) then
      if reg.Eligible() then (Claimed(true, base), Grant(boot, reg, base)) else (Claimed(false, base), Let(l))
    else if reg.Eligible() && live.None? then
      var epoch := if l.instance != "" || l.status == Released || l.boot == boot then base + 1 else base;
      (Claimed(true, epoch), Grant(boot, reg, epoch))
    else (Claimed(false, base), l)
  }

  predicate NeedsHeal(l: LeaseFile, boot: string, reg: Registration) {
    && l.boot == boot && l.status == Owned && l.instance == reg.instance && l.epoch == reg.leaseEpoch && l.session == reg.session
    && (l.pid != reg.pid || l.start != reg.start)
  }

  function Healed(l: LeaseFile, boot: string, reg: Registration): LeaseFile {
    if reg.pid <= 1 || reg.start == "" || reg.leaseEpoch == 0 || !NeedsHeal(l, boot, reg) then l
    else l.(pid := reg.pid, start := reg.start)
  }

  // registrationNotifyReady: may this registration be rung under this lease?
  predicate Gate(reg: Registration, l: LeaseFile) {
    && reg.verified && reg.ready && l.status == Owned && l.instance == reg.instance && l.epoch > 0
    && l.epoch == reg.leaseEpoch && l.pid == reg.pid && l.start == reg.start && l.session == reg.session
  }

  // --------------------------------------------------------------- the runs

  // `grants` are the results of claims not yet forgotten by their callers; `seen`
  // and `seenRegs` the conduit's snapshots; `owned` and `rung` are history: every
  // ownership ever written in this boot, and every ring by instance and epoch.
  datatype World = World(boot: string, lease: LeaseFile, regs: map<string, Registration>, grants: set<(string, nat)>,
                         seen: LeaseFile, seenRegs: map<string, Registration>,
                         owned: set<(nat, string)>, rung: seq<(nat, string)>)

  datatype Step =
    | Register(reg: Registration)                  // or any later rewrite of the record
    | ClaimFor(reg: Registration, takeover: bool, alive: set<string>)
    | SetEpoch(instance: string, epoch: nat)       // a claim's result reaches the record
    | Remove(instance: string)                     // release and reap
    | ReleaseLease(instance: string)
    | Heal(reg: Registration)
    | LoadRegistrations
    | LoadLease
    | Ring(instance: string)

  predicate Possible(w: World, s: Step) {
    match s
    case Register(reg) => reg.instance != ""
    case ClaimFor(reg, _, _) => reg.instance != ""
    case SetEpoch(instance, epoch) => instance in w.regs && (instance, epoch) in w.grants
    case Remove(instance) => true
    case ReleaseLease(instance) => true
    case Heal(reg) => true
    case LoadRegistrations => true
    case LoadLease => true
    case Ring(instance) => instance in w.seenRegs && w.seen.boot == w.boot && Gate(w.seenRegs[instance], w.seen)
  }

  function Noted(w: World, l: LeaseFile): World {
    w.(lease := l, owned := if l.boot == w.boot && l.status == Owned then w.owned + {(l.epoch, l.instance)} else w.owned)
  }

  function After(w: World, s: Step): World
    requires Possible(w, s)
  {
    match s
    case Register(reg) => w.(regs := w.regs[reg.instance := reg])
    case ClaimFor(reg, takeover, alive) =>
      var (claim, l) := Claiming(w.lease, w.boot, reg, takeover, LiveOwner(w.lease, w.boot, w.regs, alive));
      Noted(w.(grants := if claim.Claimed? then w.grants + {(reg.instance, claim.epoch)} else w.grants), l)
    case SetEpoch(instance, epoch) => w.(regs := w.regs[instance := w.regs[instance].(leaseEpoch := epoch)])
    case Remove(instance) => w.(regs := w.regs - {instance})
    case ReleaseLease(instance) => if Owns(w.lease, w.boot, instance) then Noted(w, Let(w.lease)) else w
    case Heal(reg) => Noted(w, Healed(w.lease, w.boot, reg))
    case LoadRegistrations => w.(seenRegs := w.regs)
    case LoadLease => w.(seen := w.lease)
    case Ring(instance) => w.(rung := w.rung + [(w.seen.epoch, instance)])
  }

  // A boot begins with whatever lease the last boot left, and no records.
  predicate Initial(w: World) {
    && w.lease.boot != w.boot && w.seen == ABSENT && w.boot != ""
    && w.regs == map[] && w.seenRegs == map[] && w.grants == {} && w.owned == {} && w.rung == []
  }

  ghost predicate Leads(w: World, steps: seq<Step>, v: World)
    decreases |steps|
  {
    if steps == [] then w == v
    else Possible(w, steps[0]) && Leads(After(w, steps[0]), steps[1..], v)
  }

  // ------------------------------------------------------------------ fencing

  // Within a boot: epochs never decrease, and ownership at an unchanged epoch is
  // the old ownership.
  predicate Fenced(a: LeaseFile, b: LeaseFile, boot: string) {
    a.boot == boot ==>
      && b.boot == boot && a.epoch <= b.epoch
      && (b.status == Owned && b.epoch == a.epoch ==> a.status == Owned && a.instance == b.instance)
  }

  lemma ClaimFences(l: LeaseFile, boot: string, reg: Registration, takeover: bool, live: Option<Registration>)
    requires l.boot == boot ==> l.epoch > 0
    ensures var (claim, l') := Claiming(l, boot, reg, takeover, live);
      Fenced(l, l', boot) && (l' != l ==> l'.boot == boot && l'.epoch > 0)
  {
  }

  ghost predicate Inv(w: World) {
    && w.boot != ""
    && (w.lease.boot == w.boot ==> w.lease.epoch > 0)
    && (w.lease.boot != w.boot ==> w.owned == {})
    && (w.lease.boot == w.boot && w.lease.status == Owned ==> (w.lease.epoch, w.lease.instance) in w.owned)
    && (forall o :: o in w.owned ==> o.0 <= w.lease.epoch)
    && (forall o, p :: o in w.owned && p in w.owned && o.0 == p.0 ==> o == p)
    && (w.seen.boot == w.boot ==> w.lease.boot == w.boot && w.seen.epoch <= w.lease.epoch)
    && (w.seen.boot == w.boot && w.seen.status == Owned ==> (w.seen.epoch, w.seen.instance) in w.owned)
    && (forall r :: r in w.rung ==> r in w.owned && w.seen.boot == w.boot && r.0 <= w.seen.epoch)
    && (forall i, j :: 0 <= i <= j < |w.rung| ==> w.rung[i].0 <= w.rung[j].0)
    && (forall i :: i in w.regs ==> w.regs[i].instance == i)
    && (forall i :: i in w.seenRegs ==> w.seenRegs[i].instance == i)
  }

  // Writing a lease that is fenced from the last one.
  lemma NotedKept(w: World, l: LeaseFile)
    requires Inv(w) && Fenced(w.lease, l, w.boot) && (l != w.lease ==> l.boot == w.boot && l.epoch > 0)
    ensures Inv(Noted(w, l))
  {
    forall o | o in w.owned && l.boot == w.boot && l.status == Owned && o.0 == l.epoch
      ensures o == (l.epoch, l.instance)
    {
      assert o.0 == w.lease.epoch;
    }
  }

  lemma ClaimKept(w: World, reg: Registration, takeover: bool, alive: set<string>)
    requires Inv(w) && reg.instance != ""
    ensures var v := After(w, ClaimFor(reg, takeover, alive));
      Inv(v) && Fenced(w.lease, v.lease, w.boot) && v.boot == w.boot
  {
    var live := LiveOwner(w.lease, w.boot, w.regs, alive);
    ClaimFences(w.lease, w.boot, reg, takeover, live);
    var (claim, l) := Claiming(w.lease, w.boot, reg, takeover, live);
    NotedKept(w.(grants := if claim.Claimed? then w.grants + {(reg.instance, claim.epoch)} else w.grants), l);
  }

  lemma StepKept(w: World, s: Step)
    requires Inv(w) && Possible(w, s)
    ensures Inv(After(w, s)) && Fenced(w.lease, After(w, s).lease, w.boot) && After(w, s).boot == w.boot
  {
    match s
    case ClaimFor(reg, takeover, alive) => ClaimKept(w, reg, takeover, alive);
    case ReleaseLease(instance) =>
      if Owns(w.lease, w.boot, instance) {
        NotedKept(w, Let(w.lease));
      }
    case Heal(reg) => NotedKept(w, Healed(w.lease, w.boot, reg));
    case Ring(instance) => RingKept(w, instance);
    case _ =>
  }

  lemma RingKept(w: World, instance: string)
    requires Inv(w) && Possible(w, Ring(instance))
    ensures Inv(After(w, Ring(instance)))
  {
    assert (w.seen.epoch, w.seen.instance) in w.owned;
  }

  lemma {:induction false} RunKept(w: World, steps: seq<Step>, v: World)
    requires Inv(w) && Leads(w, steps, v)
    ensures Inv(v) && Fenced(w.lease, v.lease, w.boot) && v.boot == w.boot
    decreases |steps|
  {
    if steps != [] {
      StepKept(w, steps[0]);
      RunKept(After(w, steps[0]), steps[1..], v);
    }
  }

  // In every run of a boot, an epoch was ever owned by one instance only, and the
  // conduit's rings carry epochs that never go back.
  lemma OneOwnerPerEpoch(w: World, steps: seq<Step>, v: World)
    requires Initial(w) && Leads(w, steps, v)
    ensures forall o, p :: o in v.owned && p in v.owned && o.0 == p.0 ==> o.1 == p.1
    ensures forall i, j :: 0 <= i <= j < |v.rung| ==> v.rung[i].0 <= v.rung[j].0
    ensures forall i, j :: 0 <= i < |v.rung| && 0 <= j < |v.rung| && v.rung[i].0 == v.rung[j].0 ==> v.rung[i] == v.rung[j]
  {
    RunKept(w, steps, v);
    forall i, j | 0 <= i < |v.rung| && 0 <= j < |v.rung| && v.rung[i].0 == v.rung[j].0
      ensures v.rung[i] == v.rung[j]
    {
      assert v.rung[i] in v.rung && v.rung[j] in v.rung;
    }
  }

  ghost predicate MayRing(w: World, instance: string) {
    instance in w.regs && w.lease.boot == w.boot && Gate(w.regs[instance], w.lease)
  }

  // At most one registration passes the gate.
  lemma GateUnique(w: World, a: string, b: string)
    requires Inv(w) && MayRing(w, a) && MayRing(w, b)
    ensures a == b
  {
  }

  // Once an instance has lost the lease, whether to another or by release, it
  // passes the gate again only at a strictly larger epoch, and only after a claim
  // has granted that epoch to it.
  lemma DisplacedIsFenced(w: World, es: seq<Step>, x: World, fs: seq<Step>, y: World, gs: seq<Step>, z: World, i: string)
    requires Initial(w) && Leads(w, es, x) && Leads(x, fs, y) && Leads(y, gs, z)
    requires MayRing(x, i) && !Owns(y.lease, y.boot, i) && MayRing(z, i)
    ensures z.lease.epoch > x.lease.epoch
    ensures exists k: nat | k < |gs| :: gs[k].ClaimFor? && gs[k].reg.instance == i
  {
    RunKept(w, es, x);
    RunKept(x, fs, y);
    RunKept(y, gs, z);
    RegainedByClaim(y, gs, z, i);
  }

  lemma {:induction false} RegainedByClaim(y: World, gs: seq<Step>, z: World, i: string)
    requires Inv(y) && Leads(y, gs, z) && !Owns(y.lease, y.boot, i) && Owns(z.lease, z.boot, i)
    ensures exists k: nat | k < |gs| :: gs[k].ClaimFor? && gs[k].reg.instance == i
    decreases |gs|
  {
    if gs != [] {
      StepKept(y, gs[0]);
      if Owns(After(y, gs[0]).lease, y.boot, i) {
        assert gs[0].ClaimFor? && gs[0].reg.instance == i;
      } else {
        RegainedByClaim(After(y, gs[0]), gs[1..], z, i);
        var k: nat :| k < |gs[1..]| && gs[1..][k].ClaimFor? && gs[1..][k].reg.instance == i;
        assert gs[k + 1].ClaimFor? && gs[k + 1].reg.instance == i;
      }
    }
  }

  // A claim without takeover leaves a live owner's lease alone, unless it is the
  // owner's own; a takeover that is not interactive leaves a live interactive
  // owner's alone.
  lemma LiveOwnerKept(l: LeaseFile, boot: string, reg: Registration, takeover: bool, live: Option<Registration>)
    requires live.Some? && live.value.instance == l.instance && live.value.instance != reg.instance
    requires l.boot == boot && l.status == Owned
    ensures !takeover ==> Claiming(l, boot, reg, takeover, live).1 == l && !Claiming(l, boot, reg, takeover, live).0.owner
    ensures takeover && !reg.interactive && live.value.interactive ==> Claiming(l, boot, reg, takeover, live) == (Refused, l)
  {
  }

  // A claim says "owner" exactly when the lease then is the claimant's, at the
  // epoch it was told.
  lemma OwnerMeansOwned(l: LeaseFile, boot: string, reg: Registration, takeover: bool, live: Option<Registration>)
    requires reg.instance != "" && (live.Some? ==> live.value.instance == l.instance)
    requires live.Some? ==> Owns(l, boot, l.instance)
    ensures var (claim, l') := Claiming(l, boot, reg, takeover, live);
      claim.Claimed? ==>
        && (claim.owner <==> Owns(l', boot, reg.instance))
        && (claim.owner ==> l' == Grant(boot, reg, claim.epoch))
  {
  }

  // ------------------------------------------------- who gets the lease, and how

  // The lease of this boot has an owner whose record is there and whose process lives.
  predicate OwnerLives(l: LeaseFile, boot: string, regs: map<string, Registration>, alive: set<string>) {
    l.boot == boot && l.status == Owned && l.instance != "" && l.instance in regs && l.instance in alive
  }

  lemma LiveOwnerExact(l: LeaseFile, boot: string, regs: map<string, Registration>, alive: set<string>)
    ensures var live := LiveOwner(l, boot, regs, alive);
      if OwnerLives(l, boot, regs, alive) then live == Some(regs[l.instance]) else live == None
  {
  }

  // Without takeover a claim makes the claimant the owner if and only if it may own a
  // lease, and has it already or nobody alive has it. With takeover it is refused if
  // and only if the claimant may not, or is not interactive and a live interactive
  // owner is in the way; otherwise it is the owner.
  lemma ClaimExact(l: LeaseFile, boot: string, regs: map<string, Registration>, alive: set<string>, reg: Registration, takeover: bool)
    ensures var (claim, l') := Claiming(l, boot, reg, takeover, LiveOwner(l, boot, regs, alive));
      var may := reg.interactive || reg.optIn;
      var has := l.boot == boot && l.status == Owned && l.instance == reg.instance;
      var lives := OwnerLives(l, boot, regs, alive);
      if takeover
      then (if may && (reg.interactive || !lives || !regs[l.instance].interactive) then claim.Claimed? && claim.owner else claim.Refused? && l' == l)
      else claim.Claimed? && (claim.owner <==> may && (has || !lives))
  {
    LiveOwnerExact(l, boot, regs, alive);
  }

  // The owner keeps its epoch when it claims again; any other grant is one up from the
  // epoch of this boot, and from the first one where an older boot left an instance or
  // a release behind; a takeover counts this boot only. The lease is the claimant's
  // record, in full; an owner that may own no longer lets go; else nothing changes.
  lemma ClaimGrants(l: LeaseFile, boot: string, regs: map<string, Registration>, alive: set<string>, reg: Registration, takeover: bool)
    requires l.boot == boot ==> l.epoch > 0
    ensures var (claim, l') := Claiming(l, boot, reg, takeover, LiveOwner(l, boot, regs, alive));
      var has := l.boot == boot && l.status == Owned && l.instance == reg.instance;
      if claim.Claimed? && claim.owner then
        && l' == LeaseFile(boot, reg.instance, claim.epoch, reg.pid, reg.start, reg.session, Owned)
        && claim.epoch == if has && !takeover then l.epoch else if l.boot == boot then l.epoch + 1
                          else if !takeover && (l.instance != "" || l.status == Released) then 2 else 1
      else if !takeover && has then l' == l.(instance := "", pid := 0, start := "", session := "", status := Released) && claim.epoch == l.epoch
      else l' == l && (claim.Claimed? ==> claim.epoch == if l.boot == boot then l.epoch else 1)
  {
  }

  // A release by the owner leaves the lease to nobody, at the epoch it was; one by
  // anybody else leaves it alone.
  lemma ReleaseExact(w: World, instance: string)
    ensures var v := After(w, ReleaseLease(instance));
      if w.lease.boot == w.boot && w.lease.status == Owned && w.lease.instance == instance
      then v.lease == LeaseFile(w.boot, "", w.lease.epoch, 0, "", "", Released) else v.lease == w.lease
  {
  }

  // A heal brings pid and start of the owner's own record into the lease, so that the
  // gate opens for it again, and does nothing for any other record.
  lemma HealExact(l: LeaseFile, boot: string, reg: Registration)
    ensures var l' := Healed(l, boot, reg);
      if l.boot == boot && l.status == Owned && l.instance == reg.instance && l.epoch == reg.leaseEpoch && l.session == reg.session &&
         reg.pid > 1 && reg.start != "" && reg.leaseEpoch > 0
      then l' == LeaseFile(boot, reg.instance, l.epoch, reg.pid, reg.start, reg.session, Owned) && Gate(reg.(verified := true, ready := true), l')
      else l' == l
  {
  }

  // The gate opens for a verified, ready record that the lease agrees with in every
  // point, and for no other.
  lemma GateExact(reg: Registration, l: LeaseFile)
    ensures Gate(reg, l) <==>
      reg.verified && reg.ready && reg.leaseEpoch > 0 &&
      l == LeaseFile(l.boot, reg.instance, reg.leaseEpoch, reg.pid, reg.start, reg.session, Owned)
  {
  }

  // A chain of states is a run.
  lemma {:induction false} ChainLeads(path: seq<World>, steps: seq<Step>, i: nat)
    requires |path| == |steps| + 1 && i <= |steps|
    requires forall j :: 0 <= j < |steps| ==> Possible(path[j], steps[j]) && path[j + 1] == After(path[j], steps[j])
    ensures Leads(path[i], steps[i..], path[|steps|])
    decreases |steps| - i
  {
    if i < |steps| {
      ChainLeads(path, steps, i + 1);
      assert steps[i..][0] == steps[i] && steps[i..][1..] == steps[i + 1..];
    }
  }

  // Where no live owner is in the way, a session that may own the lease gets as far as
  // being rung: it registers, claims, notes its epoch, and the conduit looks again.
  lemma ClaimantIsRung(w: World, es: seq<Step>, v: World, reg: Registration, alive: set<string>) returns (steps: seq<Step>, z: World)
    requires Initial(w) && Leads(w, es, v)
    requires reg.instance != "" && (reg.interactive || reg.optIn) && reg.verified && reg.ready
    requires !OwnerLives(v.lease, v.boot, v.regs[reg.instance := reg], alive) || v.lease.instance == reg.instance
    ensures Leads(v, steps, z) && z.lease.boot == v.boot && z.lease.status == Owned && z.lease.instance == reg.instance
    ensures z.rung == v.rung + [(z.lease.epoch, reg.instance)]
    ensures v.lease.boot == v.boot ==> z.lease.epoch >= v.lease.epoch
  {
    RunKept(w, es, v);
    var a := After(v, Register(reg));
    var b := ClaimantOwns(a, reg, alive);
    steps, z := OwnerIsRung(a, b, reg, alive);
    ChainLeads([v, a], [Register(reg)], 0);
    LeadsJoin(v, [Register(reg)], a, steps, z);
    steps := [Register(reg)] + steps;
  }

  lemma ClaimantOwns(a: World, reg: Registration, alive: set<string>) returns (b: World)
    requires Inv(a) && reg.instance != "" && (reg.interactive || reg.optIn)
    requires !OwnerLives(a.lease, a.boot, a.regs, alive) || a.lease.instance == reg.instance
    ensures Possible(a, ClaimFor(reg, false, alive)) && b == After(a, ClaimFor(reg, false, alive))
    ensures b.lease == LeaseFile(a.boot, reg.instance, b.lease.epoch, reg.pid, reg.start, reg.session, Owned) && b.lease.epoch > 0
    ensures (reg.instance, b.lease.epoch) in b.grants && b.regs == a.regs && b.boot == a.boot && b.rung == a.rung
    ensures a.lease.boot == a.boot ==> b.lease.epoch >= a.lease.epoch
  {
    ClaimExact(a.lease, a.boot, a.regs, alive, reg, false);
    ClaimGrants(a.lease, a.boot, a.regs, alive, reg, false);
    b := After(a, ClaimFor(reg, false, alive));
  }

  lemma OwnerIsRung(a: World, b: World, reg: Registration, alive: set<string>) returns (steps: seq<Step>, z: World)
    requires Possible(a, ClaimFor(reg, false, alive)) && b == After(a, ClaimFor(reg, false, alive))
    requires b.lease == LeaseFile(b.boot, reg.instance, b.lease.epoch, reg.pid, reg.start, reg.session, Owned) && b.lease.epoch > 0
    requires (reg.instance, b.lease.epoch) in b.grants && reg.instance in b.regs && b.regs[reg.instance] == reg && reg.verified && reg.ready
    ensures Leads(a, steps, z) && z.lease == b.lease && z.rung == b.rung + [(b.lease.epoch, reg.instance)]
  {
    var c := After(b, SetEpoch(reg.instance, b.lease.epoch));
    var d := After(c, LoadRegistrations);
    var e := After(d, LoadLease);
    z := After(e, Ring(reg.instance));
    steps := [ClaimFor(reg, false, alive), SetEpoch(reg.instance, b.lease.epoch), LoadRegistrations, LoadLease, Ring(reg.instance)];
    ChainLeads([a, b, c, d, e, z], steps, 0);
    assert steps[0..] == steps;
  }

  lemma {:induction false} LeadsJoin(w: World, es: seq<Step>, v: World, fs: seq<Step>, z: World)
    requires Leads(w, es, v) && Leads(v, fs, z)
    ensures Leads(w, es + fs, z)
    decreases |es|
  {
    if es == [] {
      assert es + fs == fs;
    } else {
      LeadsJoin(After(w, es[0]), es[1..], v, fs, z);
      assert (es + fs)[1..] == es[1..] + fs;
    }
  }

  // ------------------------------------------------------- the imperative form

  class Store {
    const boot: string
    var lease: LeaseFile
    var regs: map<string, Registration>

    constructor (boot: string, lease: LeaseFile)
      ensures this.boot == boot && this.lease == lease && regs == map[]
    {
      this.boot := boot;
      this.lease := lease;
      regs := map[];
    }

    method LiveLeaseOwner(alive: set<string>) returns (live: Option<Registration>)
      ensures live == LiveOwner(lease, boot, regs, alive)
    {
      if lease.boot != boot || lease.instance == "" || lease.status != Owned {
        return None;
      }
      if lease.instance !in regs {
        return None;
      }
      live := if lease.instance in alive then Some(regs[lease.instance]) else None;
    }

    method ClaimLease(reg: Registration, takeover: bool, alive: set<string>) returns (claim: Claim)
      requires lease.boot == boot ==> lease.epoch > 0
      modifies this`lease
      ensures (claim, lease) == Claiming(old(lease), boot, reg, takeover, LiveOwner(old(lease), boot, regs, alive))
    {
      var eligible := reg.interactive || reg.optIn;
      var live := LiveLeaseOwner(alive);
      var owner := false;
      var hasCurrentEpoch := lease.boot == boot && lease.epoch > 0;
      var epoch := if lease.boot == boot then lease.epoch else 0;
      if epoch == 0 {
        epoch := 1;
      }
      if takeover {
        if !eligible {
          return Refused;
        }
        if !reg.interactive {
          if live.Some? && live.value.interactive {
            return Refused;
          }
        }
        if hasCurrentEpoch {
          epoch := epoch + 1;
        }
        owner := true;
      } else if lease.instance == reg.instance && lease.boot == boot && lease.status == Owned {
        if eligible {
          owner := true;
        } else {
          lease := lease.(instance := "", pid := 0, start := "", session := "", status := Released);
          return Claimed(false, epoch);
        }
      } else if eligible && live.None? {
        if lease.instance != "" || lease.status == Released || lease.boot == boot {
          epoch := epoch + 1;
        }
        owner := true;
      }
      if !owner {
        return Claimed(false, epoch);
      }
      lease := LeaseFile(boot, reg.instance, epoch, reg.pid, reg.start, reg.session, Owned);
      claim := Claimed(true, epoch);
    }

    // The lease half of a release.
    method ReleaseLeaseOf(instance: string)
      modifies this`lease
      ensures lease == if Owns(old(lease), boot, instance) then Let(old(lease)) else old(lease)
    {
      if lease.instance != instance || lease.boot != boot || lease.status != Owned {
        return;
      }
      lease := lease.(instance := "", pid := 0, start := "", session := "", status := Released);
    }

    method HealLease(reg: Registration)
      modifies this`lease
      ensures lease == Healed(old(lease), boot, reg)
    {
      if reg.pid <= 1 || reg.start == "" || reg.leaseEpoch == 0 {
        return;
      }
      if !NeedsHeal(lease, boot, reg) {
        return;
      }
      lease := lease.(pid := reg.pid, start := reg.start);
    }

    // The claim part of a registration without interference: record, claim, epoch.
    method RuntimeRegister(reg: Registration, takeover: bool, alive: set<string>) returns (claim: Claim)
      requires reg.instance != "" && (lease.boot == boot ==> lease.epoch > 0)
      modifies this
      ensures var recorded := old(regs)[reg.instance := reg.(verified := false)];
        && (claim, lease) == Claiming(old(lease), boot, reg.(verified := false), takeover, LiveOwner(old(lease), boot, recorded, alive))
        && regs == if claim.Claimed? then recorded[reg.instance := reg.(verified := false, leaseEpoch := claim.epoch)] else recorded
    {
      var record := reg.(verified := false);
      regs := regs[reg.instance := record];
      claim := ClaimLease(record, takeover, alive);
      if claim.Claimed? {
        regs := regs[reg.instance := regs[reg.instance].(leaseEpoch := claim.epoch)];
      }
    }

    // Removes the expired records that do not own the lease.
    method ReapDeadRegistrations(expired: set<string>)
      modifies this`regs
      ensures regs == old(regs) - (set i | i in expired && !Owns(lease, boot, i))
    {
      var left := expired;
      while left != {}
        invariant left <= expired
        invariant regs == old(regs) - (set i | i in expired - left && !Owns(lease, boot, i))
      {
        var instance :| instance in left;
        left := left - {instance};
        if !(lease.boot == boot && lease.status == Owned && lease.instance == instance) {
          regs := regs - {instance};
        }
        assert expired - left == (expired - left - {instance}) + {instance};
      }
    }
  }

  // A registration that went through is the one the gate lets pass, as soon as it
  // is verified and ready.
  lemma RegisteredMayRing(l: LeaseFile, boot: string, reg: Registration, takeover: bool, live: Option<Registration>)
    requires reg.instance != ""
    requires live.Some? ==> Owns(l, boot, l.instance) && live.value.instance == l.instance
    ensures var (claim, l') := Claiming(l, boot, reg, takeover, live);
      claim.Claimed? ==>
        (l'.boot == boot && Gate(reg.(leaseEpoch := claim.epoch, verified := true, ready := true), l') <==> claim.owner)
  {
    OwnerMeansOwned(l, boot, reg, takeover, live);
  }
}
