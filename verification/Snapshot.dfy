/**
  Listener snapshots (link/ears.go): a node's list of listening sessions as text,
  printed within size limits and parsed back by every other node.
*/
module Snapshot {
  import opened Text
  import opened Wrappers

  const READER_MAX_BYTES := 131072
  const READER_MAX_LINES := 320
  const MAX_RECORD_BYTES := 1024
  const WRITER_MAX_BYTES := 98304
  const WRITER_MAX_IDENTITIES := 256

  type Int64 = n: int | -MAX_INT64 - 1 <= n <= MAX_INT64

  predicate ValueChar(c: char) {
    'A' <= c <= 'Z' || 'a' <= c <= 'z' || IsDigit(c) || c in "._:+-"
  }

  predicate ListenerValue(s: string) { 1 <= |s| <= 64 && forall c :: c in s ==> ValueChar(c) }

  predicate NodeChar(c: char) { 'a' <= c <= 'z' || IsDigit(c) || c == '-' }

  predicate NodeName(s: string) { s != [] && s[0] != '-' && forall c :: c in s ==> NodeChar(c) }

  predicate DigestText(s: string) { |s| == 64 && forall c :: c in s ==> IsDigit(c) || 'a' <= c <= 'f' }

  function Safe(s: string): string { if ListenerValue(s) then s else "-" }

  function SafeDigest(s: string): string { if s == "-" || DigestText(s) then s else "-" }

  function YesNo(b: bool): string { if b then "yes" else "no" }

  datatype Component = Component(name: string, release: string, adapter: string, ears: string)

  datatype Identity = Identity(
    name: string, principal: string, listening: bool, route: string, phase: string, cc: string, reason: string,
    pendingRing: Int64, pendingInfo: Int64, pendingOperator: Int64, generation: string,
    firstSeen: Int64, oldestPending: Int64, writtenRings: Int64, lastWritten: Int64, lastDrain: Int64,
    drainBefore: string, drainAfter: string, drainStatus: string)

  datatype Listing = Listing(
    node: string, generation: Int64, writtenAt: Int64, interval: Int64, state: string, complete: bool,
    components: seq<Component>, mailboxes: seq<string>, linkAge: Int64, identities: seq<Identity>, truncated: Int64)

  const PRINCIPALS := ["session", "watcher", "gateway"]
  const ROUTES := ["socket", "channel", "channel+socket", "none"]
  const PHASES := ["ready", "starting", "-"]
  const REASONS := ["-", "noreg", "boot", "phase", "optin", "pid", "session", "socket", "registry", "lease"]
  const STATUSES := ["ok", "partial", "-"]
  const STATES := ["running", "stopping"]

  // -------------------------------------------------------------- the printer

  predicate EnumsOk(i: Identity) {
    && i.principal in PRINCIPALS && i.route in ROUTES && i.phase in PHASES && i.reason in REASONS && i.drainStatus in STATUSES
    && (i.listening <==> i.route != "none")
  }

  predicate CountsOk(i: Identity) {
    && i.pendingRing >= 0 && i.pendingInfo >= 0 && i.pendingOperator >= 0 && i.firstSeen >= 0 && i.oldestPending >= 0
    && i.writtenRings >= 0 && i.lastWritten >= 0 && i.lastDrain >= 0
  }

  predicate Printable(i: Identity) { EnumsOk(i) && CountsOk(i) }

  function Pairs(i: Identity): seq<(string, string)>
    requires Printable(i)
  {
    [("name", Safe(i.name)), ("principal", i.principal), ("listening", YesNo(i.listening)), ("route", i.route),
     ("phase", i.phase), ("cc", Safe(i.cc)), ("reason", i.reason), ("pending-ring", Dec(i.pendingRing)),
     ("pending-info", Dec(i.pendingInfo)), ("pending-operator", Dec(i.pendingOperator)),
     ("generation", SafeDigest(i.generation)), ("first-seen", Dec(i.firstSeen)), ("oldest-pending", Dec(i.oldestPending)),
     ("written-rings", Dec(i.writtenRings)), ("last-written", Dec(i.lastWritten)), ("last-drain", Dec(i.lastDrain)),
     ("last-drain-before", SafeDigest(i.drainBefore)), ("last-drain-after", SafeDigest(i.drainAfter)),
     ("last-drain-status", i.drainStatus)]
  }

  function Token(p: (string, string)): string { p.0 + "=" + p.1 }

  function Tokens(ps: seq<(string, string)>): seq<string> {
    if ps == [] then [] else [Token(ps[0])] + Tokens(ps[1..])
  }

  // A record is a line of words.
  type Record = seq<string>

  function IdentityRecord(i: Identity): Record
    requires Printable(i)
  {
    ["identity"] + Tokens(Pairs(i))
  }

  function ComponentPairs(c: Component): seq<(string, string)> {
    [("release", Safe(c.release)), ("adapter", Safe(c.adapter)), ("ears", Safe(c.ears))]
  }

  function ComponentRecord(c: Component): Record {
    ["component", Safe(c.name)] + Tokens(ComponentPairs(c))
  }

  function ComponentRecords(cs: seq<Component>): seq<Record> {
    if cs == [] then [] else [ComponentRecord(cs[0])] + ComponentRecords(cs[1..])
  }

  function IdentityRecords(ids: seq<Identity>): (rs: seq<Record>)
    requires forall i :: i in ids ==> Printable(i)
    ensures |rs| == |ids|
  {
    if ids == [] then [] else [IdentityRecord(ids[0])] + IdentityRecords(ids[1..])
  }

  function Insert(v: string, vs: seq<string>): seq<string> {
    if vs == [] then [v]
    else if v == vs[0] then vs
    else if Below(v, vs[0]) then [v] + vs
    else [vs[0]] + Insert(v, vs[1..])
  }

  function SafeSortedUnique(vs: seq<string>): seq<string> {
    if vs == [] then [] else Insert(Safe(vs[0]), SafeSortedUnique(vs[1..]))
  }

  function MailboxRecord(mailboxes: seq<string>): Record {
    var vs := SafeSortedUnique(mailboxes);
    ["mailbox"] + if vs == [] then ["-"] else vs
  }

  predicate HeaderOk(s: Listing) {
    NodeName(s.node) && s.generation >= 0 && s.writtenAt >= 0 && s.interval > 0 && s.state in STATES && s.components != []
  }

  function HeaderTop(s: Listing, complete: bool): seq<Record>
    requires HeaderOk(s)
  {
    [["node", s.node], ["generation", Dec(s.generation)], ["written-at", Dec(s.writtenAt)],
     ["interval", Dec(s.interval)], ["state", s.state], ["complete", YesNo(complete)]]
  }

  function HeaderEnd(s: Listing): seq<Record> {
    [MailboxRecord(s.mailboxes), ["link", if s.linkAge >= 0 then Dec(s.linkAge) else "-"]]
  }

  function Header(s: Listing, complete: bool): seq<Record>
    requires HeaderOk(s)
  {
    [["ears", "1"]] + HeaderTop(s, complete) + ComponentRecords(s.components) + HeaderEnd(s)
  }

  function Trailer(omitted: nat): Record { ["truncated", Dec(omitted)] }

  function Lines(rs: seq<Record>): (lines: seq<string>)
    ensures |lines| == |rs|
  {
    if rs == [] then [] else [Join(rs[0])] + Lines(rs[1..])
  }

  function Printed(rs: seq<Record>): string { Unlines(Lines(rs)) }

  predicate ShortRecords(rs: seq<Record>) {
    forall r :: r in rs ==> |Join(r)| <= MAX_RECORD_BYTES
  }

  // Sorting by safe name.
  function InsertIdentity(i: Identity, ids: seq<Identity>): seq<Identity> {
    if ids == [] then [i]
    else if Below(Safe(ids[0].name), Safe(i.name)) then [ids[0]] + InsertIdentity(i, ids[1..])
    else [i] + ids
  }

  function Sorted(ids: seq<Identity>): seq<Identity> {
    if ids == [] then [] else InsertIdentity(ids[0], Sorted(ids[1..]))
  }

  // How many identity lines are written: as long as the next one and a trailer for
  // the rest fit.
  function Fitting(used: nat, lines: seq<string>, written: nat): (n: nat)
    requires written <= |lines|
    ensures written <= n <= |lines|
    decreases |lines| - written
  {
    if written == |lines| || written >= WRITER_MAX_IDENTITIES then written
    else if used + |lines[written]| + 1 + TrailerSize(|lines| - written - 1) > WRITER_MAX_BYTES then written
    else Fitting(used + |lines[written]| + 1, lines, written + 1)
  }

  function TrailerSize(omitted: nat): nat { |Join(Trailer(omitted))| + 1 }

  predicate AllPrintable(ids: seq<Identity>) { forall i :: i in ids ==> Printable(i) }

  predicate FitsWhole(s: Listing, ids: seq<Identity>)
    requires HeaderOk(s) && AllPrintable(ids)
  {
    |ids| <= WRITER_MAX_IDENTITIES && |Printed(Header(s, true) + IdentityRecords(ids))| <= WRITER_MAX_BYTES
  }

  // How many of the sorted identities are written.
  function Shown(s: Listing, ids: seq<Identity>): (n: nat)
    requires HeaderOk(s) && AllPrintable(ids)
    ensures n <= |ids|
  {
    if FitsWhole(s, ids) then |ids|
    else Fitting(|Printed(Header(s, false))|, Lines(IdentityRecords(ids)), 0)
  }

  // The records of the snapshot text, or None where the printer reports an error.
  function Format(s: Listing): Option<seq<Record>> {
    var ids := Sorted(s.identities);
    if !HeaderOk(s) || !AllPrintable(ids) then None
    else if !ShortRecords(IdentityRecords(ids)) || !ShortRecords(Header(s, |ids| <= WRITER_MAX_IDENTITIES)) then None
    else if FitsWhole(s, ids) then Some(Header(s, true) + IdentityRecords(ids))
    else if !ShortRecords(Header(s, false)) then None
    else
      var n := Shown(s, ids);
      var text := Header(s, false) + IdentityRecords(ids[..n]) + [Trailer(|ids| - n)];
      if |Printed(text)| > WRITER_MAX_BYTES then None else Some(text)
  }

  // --------------------------------------------------------------- the parser

  function Get(m: map<string, string>, k: string): string { if k in m then m[k] else "" }

  function ParseTokens(m: map<string, string>, words: seq<string>): Option<map<string, string>>
    decreases |words|
  {
    if words == [] then Some(m)
    else
      match Cut(words[0])
      case None => None
      case Some(kv) =>
        if kv.0 == "" || !ListenerValue(kv.1) || Get(m, kv.0) != "" then None
        else ParseTokens(m[kv.0 := kv.1], words[1..])
  }

  function ParseComponent(words: Record): Option<Component> {
    if |words| < 2 || !ListenerValue(words[1]) then None
    else
      match ParseTokens(map[], words[2..])
      case None => None
      case Some(m) => Some(Component(words[1], Get(m, "release"), Get(m, "adapter"), Get(m, "ears")))
  }

  function OrDash(v: string): string { if v == "" then "-" else v }

  // A count that may be missing.
  function Count(m: map<string, string>, k: string): Option<Int64> {
    if Get(m, k) == "" then Some(0) else ParseNonneg(Get(m, k))
  }

  function ParseNonneg(s: string): Option<Int64> {
    match ParseNonnegative(s)
    case None => None
    case Some(n) => if n > MAX_INT64 then None else Some(n)
  }

  predicate OrDigest(v: string) { v == "-" || DigestText(v) }

  function ParseIdentity(words: seq<string>): Option<Identity> {
    match ParseTokens(map[], words)
    case None => None
    case Some(m) => IdentityOf(m)
  }

  function IdentityOf(m: map<string, string>): Option<Identity> {
    var i := Identity(Get(m, "name"), Get(m, "principal"), Get(m, "listening") == "yes", Get(m, "route"), OrDash(Get(m, "phase")),
                      OrDash(Get(m, "cc")), Get(m, "reason"), 0, 0, 0, OrDash(Get(m, "generation")), 0, 0, 0, 0, 0,
                      OrDash(Get(m, "last-drain-before")), OrDash(Get(m, "last-drain-after")), OrDash(Get(m, "last-drain-status")));
    if !("name" in m && "principal" in m && "listening" in m && "route" in m && "reason" in m) then None
    else if Get(m, "listening") != "yes" && Get(m, "listening") != "no" then None
    else if !EnumsOk(i) || !OrDigest(i.generation) || !OrDigest(i.drainBefore) || !OrDigest(i.drainAfter) then None
    else Counted(i, m)
  }

  function Counted(i: Identity, m: map<string, string>): Option<Identity> {
    var a, b, c := Count(m, "pending-ring"), Count(m, "pending-info"), Count(m, "pending-operator");
    var d, e, f := Count(m, "first-seen"), Count(m, "oldest-pending"), Count(m, "written-rings");
    var g, h := Count(m, "last-written"), Count(m, "last-drain");
    if a.None? || b.None? || c.None? || d.None? || e.None? || f.None? || g.None? || h.None? then None
    else
      Some(i.(pendingRing := a.value, pendingInfo := b.value, pendingOperator := c.value, firstSeen := d.value,
              oldestPending := e.value, writtenRings := f.value, lastWritten := g.value, lastDrain := h.value))
  }

  datatype Parsing = Parsing(seen: set<string>, result: Listing, names: set<string>, truncatedAt: int)

  const START := Parsing({}, Listing("", 0, 0, 0, "", false, [], [], -1, [], 0), {}, -1)

  // The headers that may appear once.
  const SINGLE := {"node", "generation", "written-at", "interval", "state", "complete", "mailbox", "link", "truncated"}

  const MANDATORY := {"node", "generation", "written-at", "interval", "state", "complete", "mailbox", "link"}

  function ParseValue(r: Listing, key: string, v: string): Option<Listing>
    requires key in SINGLE && key != "mailbox"
  {
    if key == "node" then Some(r.(node := v))
    else if key == "state" then (if v in STATES then Some(r.(state := v)) else None)
    else if key == "complete" then (if v == "yes" || v == "no" then Some(r.(complete := v == "yes")) else None)
    else if key == "link" && v == "-" then Some(r)
    else
      match ParseNonneg(v)
      case None => None
      case Some(n) =>
        if key == "generation" then Some(r.(generation := n))
        else if key == "written-at" then Some(r.(writtenAt := n))
        else if key == "interval" then (if n == 0 then None else Some(r.(interval := n)))
        else if key == "link" then Some(r.(linkAge := n))
        else Some(r.(truncated := n))
  }

  function ParseMailbox(r: Listing, values: seq<string>): Option<Listing>
  {
    if values == ["-"] then Some(r)
    else if values == [] || !(forall v :: v in values ==> NodeName(v)) then None
    else Some(r.(mailboxes := r.mailboxes + values))
  }

  // One record, at line `index`.
  function ParseRecord(p: Parsing, index: nat, words: Record): Option<Parsing> {
    if words == [] then Some(p)
    else if words[0] == "component" then
      match ParseComponent(words)
      case None => None
      case Some(c) => Some(p.(result := p.result.(components := p.result.components + [c])))
    else if words[0] == "identity" then
      match ParseIdentity(words[1..])
      case None => None
      case Some(i) =>
        if i.name in p.names then None
        else Some(p.(names := p.names + {i.name}, result := p.result.(identities := p.result.identities + [i])))
    else if words[0] !in SINGLE then Some(p)
    else if words[0] in p.seen then None
    else
      var r := if words[0] == "mailbox" then ParseMailbox(p.result, words[1..])
               else if |words| != 2 then None
               else ParseValue(p.result, words[0], words[1]);
      match r
      case None => None
      case Some(r) => Some(p.(seen := p.seen + {words[0]}, result := r, truncatedAt := if words[0] == "truncated" then index else p.truncatedAt))
  }

  function ParseLines(p: Parsing, index: nat, lines: seq<string>): Option<Parsing>
    decreases |lines|
  {
    if lines == [] then Some(p)
    else
      match ParseRecord(p, index, Fields(lines[0]))
      case None => None
      case Some(q) => ParseLines(q, index + 1, lines[1..])
  }

  function Lined(data: string): seq<string> {
    var lines := Split(data);
    if lines[|lines| - 1] == "" then lines[..|lines| - 1] else lines
  }

  function Finished(p: Parsing, node: string, lines: nat): Option<Listing> {
    if !(MANDATORY <= p.seen) || p.result.components == [] || p.result.node != node then None
    else if ("truncated" in p.seen) != !p.result.complete || ("truncated" in p.seen && p.truncatedAt != lines - 1) then None
    else Some(p.result)
  }

  function Parse(data: string, node: string): Option<Listing> {
    var lines := Lined(data);
    if |data| > READER_MAX_BYTES || |lines| > READER_MAX_LINES || lines == [] || lines[0] != "ears 1" then None
    else if !(forall l :: l in lines ==> |l| <= MAX_RECORD_BYTES) then None
    else
      match ParseLines(START, 1, lines[1..])
      case None => None
      case Some(p) => Finished(p, node, |lines|)
  }

  // ------------------------------------------------------ the imperative form

  // The loop that cuts the identity list.
  method CutIdentities(header: string, lines: seq<string>) returns (out: string, written: nat)
    ensures written == Fitting(|header|, lines, 0)
    ensures out == header + Unlines(lines[..written])
  {
    out := header;
    written := 0;
    assert lines[..0] == [] && out == header + "";
    while written < |lines| && written < WRITER_MAX_IDENTITIES
      invariant written <= |lines|
      invariant out == header + Unlines(lines[..written])
      invariant Fitting(|header|, lines, 0) == Fitting(|out|, lines, written)
      decreases |lines| - written
    {
      var trailer := Join(Trailer(|lines| - written - 1)) + "\n";
      if |out| + |lines[written]| + 1 + |trailer| > WRITER_MAX_BYTES {
        break;
      }
      UnlinesAppends(lines[..written], [lines[written]]);
      assert lines[..written + 1] == lines[..written] + [lines[written]];
      assert Unlines([lines[written]]) == lines[written] + "\n" by { assert Unlines([]) == ""; }
      out := out + (lines[written] + "\n");
      written := written + 1;
    }
  }

  // The loop over the records of a snapshot.
  method ParseAll(lines: seq<string>) returns (p: Parsing, ok: bool)
    ensures ok <==> ParseLines(START, 1, lines).Some?
    ensures ok ==> ParseLines(START, 1, lines) == Some(p)
  {
    p := START;
    var index := 0;
    while index < |lines|
      invariant index <= |lines|
      invariant ParseLines(START, 1, lines) == ParseLines(p, index + 1, lines[index..])
    {
      var fields := Fields(lines[index]);
      var q := ParseRecord(p, index + 1, fields);
      if q.None? {
        return p, false;
      }
      p := q.value;
      index := index + 1;
    }
    ok := true;
  }

  method ParseListenerSnapshot(data: string, node: string) returns (r: Option<Listing>)
    ensures r == Parse(data, node)
  {
    if |data| > READER_MAX_BYTES {
      return None;
    }
    var lines := Split(data);
    if lines[|lines| - 1] == "" {
      lines := lines[..|lines| - 1];
    }
    if |lines| > READER_MAX_LINES || lines == [] || lines[0] != "ears 1" {
      return None;
    }
    var i := 0;
    while i < |lines|
      invariant i <= |lines|
      invariant forall j :: 0 <= j < i ==> |lines[j]| <= MAX_RECORD_BYTES
    {
      if |lines[i]| > MAX_RECORD_BYTES {
        return None;
      }
      i := i + 1;
    }
    var p, ok := ParseAll(lines[1..]);
    r := if ok then Finished(p, node, |lines|) else None;
  }
}
