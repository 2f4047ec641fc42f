/**
  The relay of link/pump.go and link/install.go: two peers copy files to each other
  over one byte stream each way. Both send at once; each direction carries one
  object at a time. A relay loop has a sender, a reader that must never block on a
  disk, and an installer that runs beside the reader.
*/
module Relay {
  import opened Wrappers

  type Bytes = string

  datatype Class = Spool | Presence | Stream | Mind

  // A file of the shared tree: class, names, and so its path below the home
  // directory of either peer.
  datatype Key = Key(class_: Class, stream: string, node: string, session: string, basename: string)

  // SHA-256 as an injective function, and the transfer id over key and digest
  // (Codec proves that its preimage determines both).
  datatype Digest = Sha256(of: Bytes)
  datatype TransferId = TransferId(key: Key, digest: Digest)

  datatype Offer = Offer(id: TransferId, size: nat)

  datatype Code = UnnegotiatedClass | ObjectTooLarge | InvalidOffer | Expired | ImmutableConflict

  datatype Frame =
    | OfferFrame(o: Offer)
    | DataFrame(id: TransferId, data: Bytes)
    | Have(id: TransferId)
    | Need(id: TransferId)
    | Stored(id: TransferId)
    | Error(code: Code)          // recoverable; carries no transfer id
    | Ping(epoch: nat)
    | Pong(epoch: nat)

  datatype Role = Dial | Serve

  // `downstream` is the dialling node's name, `minor` the negotiated version.
  datatype Config = Config(role: Role, downstream: string, minor: nat, maxObject: nat)

  const STREAM_MINOR := 1
  const STATUS_MINOR := 2

  datatype Fatal = InflightLimit | UnexpectedData | BadData | UnexpectedResponse | IdMismatch | BadFirst | BadSecond | BadOwner

  // Where sendCandidate stands. `del`: unlink the source once the peer has STORED it.
  datatype Sender =
    | SIdle
    | SFirst(o: Offer, data: Bytes, del: bool)    // OFFER written
    | SSend(o: Offer, data: Bytes, del: bool)     // NEED received
    | SSecond(o: Offer, needed: bool, del: bool)  // HAVE received, or DATA written
    | SDone(o: Offer, del: bool)                  // STORED received

  datatype Installer = Free | Installing(o: Offer, data: Bytes) | Replying(reply: Frame)

  // The reader: an accepted OFFER, or an OFFER answered HAVE whose STORED follows.
  datatype Reader = Reader(incoming: Option<Offer>, have: Option<Offer>, job: Installer)

  // `held` is history: every content a path ever had.
  datatype Disk = Disk(files: map<Key, Bytes>, held: set<(Key, Bytes)>)

  datatype Memory = Memory(known: map<Key, TransferId>, rejected: map<Key, TransferId>, origins: map<Key, TransferId>)

  datatype Peer = Peer(cfg: Config, disk: Disk, sender: Sender, responses: seq<Frame>, reader: Reader,
                       memory: Memory, out: seq<Frame>, fatal: Option<Fatal>)

  predicate Says(m: map<Key, TransferId>, id: TransferId) {
    id.key in m && m[id.key] == id
  }

  function Write(p: Peer, f: Frame): Peer {
    p.(out := p.out + [f])
  }

  function Die(p: Peer, why: Fatal): Peer {
    p.(fatal := Some(why))
  }

  function Place(d: Disk, k: Key, b: Bytes): Disk {
    Disk(d.files[k := b], d.held + {(k, b)})
  }

  // ------------------------------------------------------------ the installer

  // installer.destination, for names that are valid.
  predicate HasDestination(cfg: Config, k: Key) {
    match k.class_
    case Spool => if cfg.role == Dial then k.node == cfg.downstream else k.node != cfg.downstream
    case Presence => cfg.role == Serve ==> k.node == cfg.downstream
    case Stream => if cfg.role == Dial then k.node != cfg.downstream else k.node == cfg.downstream
    case Mind => if cfg.role == Dial then k.node != cfg.downstream else k.node == cfg.downstream
  }

  predicate Epochal(k: Key) {
    k.class_ == Stream || k.class_ == Mind
  }

  // What the clock says of an epoch-named object at installation, and whether a
  // presence file gives way to the incoming one (its replica rules).
  datatype Verdict = Verdict(future: bool, expired: bool, wins: bool)

  datatype InstallResult = Installed | AlreadyStored | Quarantined | ExpiredSkipped

  function Receive(d: Disk, o: Offer, data: Bytes, v: Verdict): (InstallResult, Disk) {
    var k := o.id.key;
    if |data| != o.size || Sha256(data) != o.id.digest then (Quarantined, d)
    else if Epochal(k) && v.future then (Quarantined, d)
    else if Epochal(k) && v.expired then (ExpiredSkipped, d)
    else if k.class_ == Presence then (Installed, if v.wins || k !in d.files then Place(d, k, data) else d)
    else if k !in d.files then (Installed, Place(d, k, data))
    else if Sha256(d.files[k]) == o.id.digest then (AlreadyStored, d)
    else (Quarantined, d)
  }

  // ---------------------------------------------------------------- readLoop

  // Why an OFFER is answered with ERROR right away.
  function Refusal(cfg: Config, o: Offer, expired: bool): Option<Code> {
    var k := o.id.key;
    if k.class_ == Stream && cfg.minor < STREAM_MINOR then Some(UnnegotiatedClass)
    else if k.class_ == Mind && cfg.minor < STATUS_MINOR then Some(UnnegotiatedClass)
    else if o.size > cfg.maxObject then Some(ObjectTooLarge)
    else if !HasDestination(cfg, k) then Some(InvalidOffer)
    else if Epochal(k) && expired then Some(Expired)
    else None
  }

  function OnOffer(p: Peer, o: Offer, expired: bool): Peer {
    if p.reader.incoming.Some? || p.reader.job.Installing? then Die(p, InflightLimit)
    else
      match Refusal(p.cfg, o, expired)
      case Some(code) => Write(p, Error(code))
      case None =>
        var k := o.id.key;
        if k in p.disk.files && Sha256(p.disk.files[k]) == o.id.digest
        then Write(p.(memory := p.memory.(origins := p.memory.origins[k := o.id]), reader := p.reader.(have := Some(o))), Have(o.id))
        else Write(p.(reader := p.reader.(incoming := Some(o))), Need(o.id))
  }

  function OnData(p: Peer, id: TransferId, data: Bytes): Peer {
    if p.reader.incoming.None? then Die(p, UnexpectedData)
    else if id != p.reader.incoming.value.id then Die(p, BadData)
    else p.(reader := p.reader.(incoming := None, job := Installing(p.reader.incoming.value, data)))
  }

  // One turn of the reader. It does not read while a STORED after HAVE is pending.
  function OnFrame(p: Peer, f: Frame, expired: bool): Peer {
    match f
    case OfferFrame(o) => OnOffer(p, o, expired)
    case DataFrame(id, data) => OnData(p, id, data)
    case Have(_) => if p.sender.SIdle? then Die(p, UnexpectedResponse) else p.(responses := p.responses + [f])
    case Need(_) => if p.sender.SIdle? then Die(p, UnexpectedResponse) else p.(responses := p.responses + [f])
    case Stored(_) => if p.sender.SIdle? then Die(p, UnexpectedResponse) else p.(responses := p.responses + [f])
    case Error(_) => if p.sender.SIdle? then p else p.(responses := p.responses + [f])
    case Ping(e) => Write(p, Pong(e))
    case Pong(_) => p
  }

  // ------------------------------------------------------------ sendCandidate

  // What the clock says of a candidate.
  datatype Age = Age(expired: bool, future: bool)

  predicate Disposable(cfg: Config, k: Key, fire: bool) {
    k.class_ == Spool && (cfg.role == Serve || fire)
  }

  // From the file on disk to the OFFER frame. `fire`: the file is an ack or bounce.
  function Consider(p: Peer, k: Key, fire: bool, age: Age): Peer
    requires p.sender.SIdle? && k in p.disk.files
  {
    var data, del := p.disk.files[k], Disposable(p.cfg, k, fire);
    var id := TransferId(k, Sha256(data));
    if k.class_ == Stream && p.cfg.minor < STREAM_MINOR then p
    else if k.class_ == Mind && p.cfg.minor < STATUS_MINOR then p
    else if Epochal(k) && age.expired then p
    else if |data| > p.cfg.maxObject then Write(p, Error(ObjectTooLarge))
    else if Says(p.memory.origins, id) || Says(p.memory.rejected, id) then p
    else if Says(p.memory.known, id) then
      if del then p.(disk := p.disk.(files := p.disk.files - {k})) else p
    else if Epochal(k) && age.future then p.(disk := p.disk.(files := p.disk.files - {k}))  // moved to spool/dead
    else Write(p.(sender := SFirst(Offer(id, |data|), data, del)), OfferFrame(Offer(id, |data|)))
  }

  // The first response: waitResponse and what follows it.
  function TakeFirst(p: Peer): Peer
    requires p.sender.SFirst? && p.responses != []
  {
    var f, s := p.responses[0], p.sender;
    var p := p.(responses := p.responses[1..]);
    if f.Error? then p.(sender := SIdle, memory := p.memory.(rejected := p.memory.rejected[s.o.id.key := s.o.id]))
    else if !f.Have? && !f.Need? && !f.Stored? then Die(p, IdMismatch)
    else if f.id != s.o.id then Die(p, IdMismatch)
    else if f.Have? then p.(sender := SSecond(s.o, false, s.del))
    else if f.Need? then p.(sender := SSend(s.o, s.data, s.del))
    else Die(p, BadFirst)
  }

  function WriteData(p: Peer): Peer
    requires p.sender.SSend?
  {
    Write(p.(sender := SSecond(p.sender.o, true, p.sender.del)), DataFrame(p.sender.o.id, p.sender.data))
  }

  function TakeSecond(p: Peer): Peer
    requires p.sender.SSecond? && p.responses != []
  {
    var f, s := p.responses[0], p.sender;
    var p := p.(responses := p.responses[1..]);
    if f.Error? then p.(sender := SIdle, memory := p.memory.(rejected := p.memory.rejected[s.o.id.key := s.o.id]))
    else if !f.Have? && !f.Need? && !f.Stored? then Die(p, IdMismatch)
    else if f.id != s.o.id then Die(p, IdMismatch)
    else if f.Stored? then p.(sender := SDone(s.o, s.del))
    else Die(p, BadSecond)
  }

  // markKnown, and removeTransit if the source still has the offered digest.
  function Finish(p: Peer): Peer
    requires p.sender.SDone?
  {
    var o, del := p.sender.o, p.sender.del;
    var k := o.id.key;
    var p := p.(sender := SIdle, memory := p.memory.(known := p.memory.known[k := o.id], rejected := p.memory.rejected - {k}));
    if del && k in p.disk.files && Sha256(p.disk.files[k]) == o.id.digest
    then p.(disk := p.disk.(files := p.disk.files - {k})) else p
  }

  // --------------------------------------------------------- installIncoming

  function Install(p: Peer, v: Verdict): Peer
    requires p.reader.job.Installing?
  {
    var o := p.reader.job.o;
    var (result, disk) := Receive(p.disk, o, p.reader.job.data, v);
    var p := p.(disk := disk);
    match result
    case ExpiredSkipped => p.(reader := p.reader.(job := Replying(Error(Expired))))
    case Quarantined => p.(reader := p.reader.(job := Replying(Error(ImmutableConflict))))
    case _ => p.(memory := p.memory.(origins := p.memory.origins[o.id.key := o.id]), reader := p.reader.(job := Replying(Stored(o.id))))
  }

  function Reply(p: Peer): Peer
    requires p.reader.job.Replying?
  {
    Write(p.(reader := p.reader.(job := Free)), p.reader.job.reply)
  }

  function FinishHave(p: Peer): Peer
    requires p.reader.have.Some?
  {
    Write(p.(reader := p.reader.(have := None)), Stored(p.reader.have.value.id))
  }

  // ------------------------------------------------------------- two peers

  datatype Side = A | B

  function Other(x: Side): Side { if x == A then B else A }

  datatype Link = Link(a: Peer, b: Peer)

  function At(l: Link, x: Side): Peer { if x == A then l.a else l.b }

  function With(l: Link, x: Side, p: Peer): Link { if x == A then l.(a := p) else l.(b := p) }

  datatype Action =
    | DoConsider(k: Key, fire: bool, age: Age)
    | DoFirst
    | DoData
    | DoSecond
    | DoFinish
    | DoInstall(v: Verdict)
    | DoReply
    | DoFinishHave
    | DoPing(epoch: nat)
    | Put(k: Key, b: Bytes)      // another process of this node writes the file
    | Drop(k: Key)               // or takes it away

  predicate Can(p: Peer, a: Action) {
    p.fatal.None? &&
    match a
    case DoConsider(k, _, _) => p.sender.SIdle? && k in p.disk.files
    case DoFirst => p.sender.SFirst? && p.responses != []
    case DoData => p.sender.SSend?
    case DoSecond => p.sender.SSecond? && p.responses != []
    case DoFinish => p.sender.SDone?
    case DoInstall(_) => p.reader.job.Installing?
    case DoReply => p.reader.job.Replying?
    case DoFinishHave => p.reader.have.Some?
    case DoPing(_) => true
    case Put(_, _) => true
    case Drop(_) => true
  }

  function Do(p: Peer, a: Action): Peer
    requires Can(p, a)
  {
    match a
    case DoConsider(k, fire, age) => Consider(p, k, fire, age)
    case DoFirst => TakeFirst(p)
    case DoData => WriteData(p)
    case DoSecond => TakeSecond(p)
    case DoFinish => Finish(p)
    case DoInstall(v) => Install(p, v)
    case DoReply => Reply(p)
    case DoFinishHave => FinishHave(p)
    case DoPing(e) => Write(p, Ping(e))
    case Put(k, b) => p.(disk := Place(p.disk, k, b))
    case Drop(k) => p.(disk := p.disk.(files := p.disk.files - {k}))
  }

  // One step of side x: an action of its own, or reading the next frame of the other.
  datatype Step = Own(x: Side, a: Action) | Read(x: Side, expired: bool)

  predicate Possible(l: Link, s: Step) {
    match s
    case Own(x, a) => Can(At(l, x), a)
    case Read(x, _) => At(l, x).fatal.None? && At(l, x).reader.have.None? && At(l, Other(x)).out != []
  }

  function After(l: Link, s: Step): Link
    requires Possible(l, s)
  {
    match s
    case Own(x, a) => With(l, x, Do(At(l, x), a))
    case Read(x, expired) =>
      var y := At(l, Other(x));
      With(With(l, x, OnFrame(At(l, x), y.out[0], expired)), Other(x), y.(out := y.out[1..]))
  }

  predicate NewPeer(p: Peer) {
    && p.sender == SIdle && p.responses == [] && p.reader == Reader(None, None, Free) && p.out == [] && p.fatal == None
    && p.memory == Memory(map[], map[], map[])
    && (forall k :: k in p.disk.files ==> (k, p.disk.files[k]) in p.disk.held)
  }

  predicate Initial(l: Link) {
    NewPeer(l.a) && NewPeer(l.b)
  }
}
