/**
  What a reader learns from a printed snapshot, in terms of the snapshot alone: a
  well-formed one comes back as it was, but for the order of its mailboxes and
  identities, and if it was cut, as a sorted beginning and the number left out.
*/
module SnapshotFaithful {
  import opened Snapshot
  import opened SnapshotLimits
  import opened SnapshotRoundTrip
  import opened SnapshotSafety
  import SnapshotText
  import opened Text
  import opened Wrappers

  // A value the format can carry: 1 to 64 letters, digits, dots, underscores, colons,
  // pluses and dashes.
  predicate PlainChar(c: char) {
    'A' <= c <= 'Z' || 'a' <= c <= 'z' || '0' <= c <= '9' || c == '.' || c == '_' || c == ':' || c == '+' || c == '-'
  }

  predicate Plain(v: string) { 1 <= |v| <= 64 && forall c :: c in v ==> PlainChar(c) }

  // A queue digest: 64 hexadecimal digits, or none.
  predicate PlainDigest(v: string) { v == "-" || (|v| == 64 && forall c :: c in v ==> '0' <= c <= '9' || 'a' <= c <= 'f') }

  predicate PlainNode(v: string) { v != [] && v[0] != '-' && forall c :: c in v ==> 'a' <= c <= 'z' || '0' <= c <= '9' || c == '-' }

  lemma SafeExact(v: string)
    ensures Safe(v) == (if Plain(v) then v else "-") && SafeDigest(v) == (if PlainDigest(v) then v else "-")
  {
    assert ListenerValue(v) <==> Plain(v) by {
      assert forall c :: ValueChar(c) <==> PlainChar(c);
    }
  }

  predicate PlainIdentity(i: Identity) {
    && Plain(i.name) && Plain(i.cc) && PlainDigest(i.generation) && PlainDigest(i.drainBefore) && PlainDigest(i.drainAfter)
    && i.principal in ["session", "watcher", "gateway"] && i.route in ["socket", "channel", "channel+socket", "none"]
    && i.phase in ["ready", "starting", "-"] && i.drainStatus in ["ok", "partial", "-"]
    && i.reason in ["-", "noreg", "boot", "phase", "optin", "pid", "session", "socket", "registry", "lease"]
    && (i.listening <==> i.route != "none")
    && i.pendingRing >= 0 && i.pendingInfo >= 0 && i.pendingOperator >= 0 && i.firstSeen >= 0 && i.oldestPending >= 0
    && i.writtenRings >= 0 && i.lastWritten >= 0 && i.lastDrain >= 0
  }

  predicate PlainComponent(c: Component) { Plain(c.name) && Plain(c.release) && Plain(c.adapter) && Plain(c.ears) }

  predicate Distinct(vs: seq<string>) { forall a, b :: 0 <= a < b < |vs| ==> vs[a] != vs[b] }

  // A snapshot as a node makes it.
  predicate PlainListing(s: Listing) {
    && PlainNode(s.node) && s.generation >= 0 && s.writtenAt >= 0 && s.interval > 0 && (s.state == "running" || s.state == "stopping")
    && s.components != [] && (forall c :: c in s.components ==> PlainComponent(c))
    && (forall m :: m in s.mailboxes ==> PlainNode(m) && |m| <= 64) && Distinct(s.mailboxes)
    && s.linkAge >= -1
    && (forall i :: i in s.identities ==> PlainIdentity(i))
    && (forall a, b :: 0 <= a < b < |s.identities| ==> s.identities[a].name != s.identities[b].name)
  }

  lemma PlainIsPrintable(i: Identity)
    requires PlainIdentity(i)
    ensures Printable(i) && SnapshotText.NormalIdentity(i) == i
  {
    SafeExact(i.name);
    SafeExact(i.cc);
    SafeExact(i.generation);
    SafeExact(i.drainBefore);
    SafeExact(i.drainAfter);
  }

  lemma {:induction false} PlainIdentitiesStay(ids: seq<Identity>)
    requires forall i :: i in ids ==> PlainIdentity(i)
    ensures NormalIdentities(ids) == ids
  {
    if ids != [] {
      assert ids[0] in ids;
      PlainIsPrintable(ids[0]);
      PlainIdentitiesStay(ids[1..]);
    }
  }

  lemma {:induction false} PlainComponentsStay(cs: seq<Component>)
    requires forall c :: c in cs ==> PlainComponent(c)
    ensures NormalComponents(cs) == cs
  {
    if cs != [] {
      assert cs[0] in cs;
      SafeExact(cs[0].name);
      SafeExact(cs[0].release);
      SafeExact(cs[0].adapter);
      SafeExact(cs[0].ears);
      PlainComponentsStay(cs[1..]);
    }
  }

  lemma {:induction false} InsertCounts(v: string, vs: seq<string>)
    requires v !in vs
    ensures multiset(Insert(v, vs)) == multiset(vs) + multiset{v}
  {
    if vs != [] && !Below(v, vs[0]) {
      InsertCounts(v, vs[1..]);
      assert vs == [vs[0]] + vs[1..];
    }
  }

  lemma {:induction false} DistinctStay(ms: seq<string>)
    requires Distinct(ms) && forall m :: m in ms ==> Plain(m)
    ensures multiset(SafeSortedUnique(ms)) == multiset(ms)
  {
    if ms != [] {
      DistinctTail(ms);
      DistinctStay(ms[1..]);
      SafeExact(ms[0]);
      OneMore(ms[0], ms[1..], SafeSortedUnique(ms[1..]));
      assert ms == [ms[0]] + ms[1..];
    }
  }

  lemma DistinctTail(ms: seq<string>)
    requires Distinct(ms) && ms != [] && forall m :: m in ms ==> Plain(m)
    ensures Distinct(ms[1..]) && ms[0] !in ms[1..] && forall m :: m in ms[1..] ==> Plain(m)
  {
    assert forall b :: 0 <= b < |ms[1..]| ==> ms[1..][b] == ms[b + 1];
  }

  lemma OneMore(v: string, vs: seq<string>, us: seq<string>)
    requires v !in vs && multiset(us) == multiset(vs)
    ensures multiset(Insert(v, us)) == multiset(vs) + multiset{v}
  {
    assert v !in multiset(us);
    InsertCounts(v, us);
  }

  lemma MailboxesStay(ms: seq<string>)
    requires Distinct(ms) && forall m :: m in ms ==> PlainNode(m) && |m| <= 64
    ensures MailboxesOk(ms) && multiset(NormalMailboxes(ms)) == multiset(ms) && Ascending(NormalMailboxes(ms))
  {
    forall m | m in ms
      ensures Plain(m) && NodeName(m)
    {
      assert forall c :: c in m ==> PlainChar(c) && NodeChar(c);
    }
    DistinctStay(ms);
    UniqueAscends(ms);
    assert forall u :: u in SafeSortedUnique(ms) <==> u in multiset(ms);
    assert !PlainNode("-") && SafeSortedUnique(ms) != ["-"];
  }

  lemma PlainReady(s: Listing, ids: seq<Identity>)
    requires PlainListing(s) && multiset(ids) == multiset(s.identities)
    ensures HeaderOk(s) && AllPrintable(ids) && (forall i :: i in ids ==> PlainIdentity(i) && Safe(i.name) == i.name)
  {
    forall i | i in ids
      ensures PlainIdentity(i) && Printable(i) && Safe(i.name) == i.name
    {
      assert i in multiset(ids);
      PlainIsPrintable(i);
      SafeExact(i.name);
    }
    assert forall c :: c in s.node ==> NodeChar(c);
  }

  lemma TwiceCounts(ids: seq<Identity>, a: nat, b: nat)
    requires a < b < |ids| && ids[a] == ids[b]
    ensures multiset(ids)[ids[a]] >= 2
  {
    assert ids == ids[..b] + [ids[b]] + ids[b + 1..];
    assert ids[..b][a] == ids[a];
    assert ids[a] in multiset(ids[..b]);
  }

  lemma {:induction false} OnceCounts(ids: seq<Identity>, i: Identity)
    requires forall a, b :: 0 <= a < b < |ids| ==> ids[a].name != ids[b].name
    ensures multiset(ids)[i] <= 1
  {
    if ids != [] {
      var rest := ids[1..];
      assert ids == [ids[0]] + rest;
      assert forall b :: 0 <= b < |rest| ==> rest[b] == ids[b + 1];
      OnceCounts(rest, i);
      if i == ids[0] {
        assert i !in rest;
        assert i !in multiset(rest);
      }
    }
  }

  // Distinct names stay distinct in another order.
  lemma NamesStayDistinct(ids: seq<Identity>, others: seq<Identity>)
    requires multiset(ids) == multiset(others) && forall a, b :: 0 <= a < b < |ids| ==> ids[a].name != ids[b].name
    ensures forall a, b :: 0 <= a < b < |others| ==> others[a].name != others[b].name
  {
    forall a, b | 0 <= a < b < |others|
      ensures others[a].name != others[b].name
    {
      assert others[a] in multiset(ids) && others[b] in multiset(ids);
      OnceCounts(ids, others[a]);
      if others[a] == others[b] {
        TwiceCounts(others, a, b);
      }
    }
  }

  predicate InOrder(ids: seq<Identity>) {
    forall a, b :: 0 <= a < b < |ids| ==> !Below(ids[b].name, ids[a].name)
  }

  // What comes back of s: its first identities in the order of their names, all of
  // them unless it says how many are missing.
  ghost predicate ComesBackAs(s: Listing, r: Listing, rest: seq<Identity>) {
    && r.node == s.node && r.generation == s.generation && r.writtenAt == s.writtenAt && r.interval == s.interval && r.state == s.state
    && r.components == s.components && r.linkAge == s.linkAge
    && multiset(r.mailboxes) == multiset(s.mailboxes) && Ascending(r.mailboxes)
    && multiset(r.identities + rest) == multiset(s.identities) && InOrder(r.identities + rest)
    && r.truncated == |rest| && (r.complete <==> rest == [])
  }

  function Min(a: nat, b: nat): nat { if a < b then a else b }

  lemma PlainOrder(ids: seq<Identity>)
    requires ByName(ids) && forall i :: i in ids ==> Safe(i.name) == i.name
    ensures InOrder(ids)
  {
    forall a, b | 0 <= a < b < |ids|
      ensures !Below(ids[b].name, ids[a].name)
    {
      assert ids[a] in ids && ids[b] in ids;
    }
  }

  // What is needed of a well-formed snapshot, its identities sorted.
  predicate Facts(s: Listing, ids: seq<Identity>) {
    && HeaderOk(s) && AllPrintable(ids) && MailboxesOk(s.mailboxes) && ByName(ids) && |ids| <= MAX_INT64
    && multiset(ids) == multiset(s.identities) && |ids| == |s.identities|
    && (forall i :: i in ids ==> Safe(i.name) == i.name) && (forall a, b :: 0 <= a < b < |ids| ==> ids[a].name != ids[b].name)
    && NormalIdentities(ids) == ids && NormalComponents(s.components) == s.components && s.linkAge >= -1
    && multiset(NormalMailboxes(s.mailboxes)) == multiset(s.mailboxes) && Ascending(NormalMailboxes(s.mailboxes))
  }

  lemma PlainFacts(s: Listing)
    requires PlainListing(s) && |s.identities| <= MAX_INT64
    ensures Facts(s, Sorted(s.identities))
  {
    var ids := Sorted(s.identities);
    SortedByName(s.identities);
    PlainReady(s, ids);
    MailboxesStay(s.mailboxes);
    NamesStayDistinct(s.identities, ids);
    PlainIdentitiesStay(ids);
    PlainComponentsStay(s.components);
  }

  lemma {:induction false} NormalPrefix(ids: seq<Identity>, n: nat)
    requires n <= |ids|
    ensures NormalIdentities(ids[..n]) == NormalIdentities(ids)[..n]
  {
    if n > 0 {
      assert ids[..n][1..] == ids[1..][..n - 1];
      NormalPrefix(ids[1..], n - 1);
    }
  }

  // The normal form of the first n identities is the snapshot itself.
  lemma NormalComesBack(s: Listing, ids: seq<Identity>, n: nat, whole: bool)
    requires Facts(s, ids) && n <= |ids| && (whole <==> n == |ids|)
    ensures ComesBackAs(s, NormalOf(s, ids[..n], whole, |ids| - n), ids[n..])
  {
    NormalPrefix(ids, n);
    PlainOrder(ids);
    Halves(ids, n, NormalOf(s, ids[..n], whole, |ids| - n).identities);
  }

  lemma Halves(ids: seq<Identity>, n: nat, first: seq<Identity>)
    requires n <= |ids| && first == ids[..n]
    ensures first + ids[n..] == ids && |ids[n..]| == |ids| - n
  {
  }

  lemma PrefixApart(ids: seq<Identity>, n: nat)
    requires n <= |ids| && (forall a, b :: 0 <= a < b < |ids| ==> ids[a].name != ids[b].name) && forall i :: i in ids ==> Safe(i.name) == i.name
    ensures DistinctSafe(ids[..n])
  {
    forall a, b | 0 <= a < b < n
      ensures Safe(ids[a].name) != Safe(ids[b].name)
    {
      assert ids[a] in ids && ids[b] in ids;
    }
  }

  // How many are written, and that nothing is missing exactly from a whole snapshot.
  lemma WrittenCount(s: Listing, ids: seq<Identity>)
    requires ids == Sorted(s.identities) && Ready(s) && Format(s).Some?
    ensures Shown(s, ids) <= Min(|ids|, 256) && (Whole(s) <==> Shown(s, ids) == |ids|)
  {
    if !Whole(s) {
      CutIsMaximal(s);
      CutLeavesOut(s);
    }
  }

  lemma PrefixReadable(s: Listing, ids: seq<Identity>, n: nat, whole: bool)
    requires Facts(s, ids) && n <= Min(|ids|, 256) && 10 + |s.components| + Min(|ids|, 256) <= 320
    ensures ReadableText(s.mailboxes, |s.components|, ids[..n], whole)
  {
    PrefixApart(ids, n);
  }

  lemma FactsReadable(s: Listing, ids: seq<Identity>)
    requires Facts(s, ids) && ids == Sorted(s.identities) && Format(s).Some? && 10 + |s.components| + Min(|ids|, 256) <= 320
    ensures Ready(s) && Readable(s)
  {
    WrittenCount(s, ids);
    PrefixReadable(s, ids, Shown(s, ids), Whole(s));
  }

  lemma KeptComesBack(s: Listing, ids: seq<Identity>)
    requires Ready(s) && Format(s).Some? && ids == Sorted(s.identities) && Facts(s, ids)
    ensures ComesBackAs(s, NormalOf(s, Kept(s), Whole(s), Omitted(s)), ids[Shown(s, ids)..])
  {
    WrittenCount(s, ids);
    NormalComesBack(s, ids, Shown(s, ids), Whole(s));
  }

  // A well-formed snapshot that is printed in at most 320 lines is read back as it is.
  lemma PlainReadsBack(s: Listing) returns (r: Listing, rest: seq<Identity>)
    requires PlainListing(s) && |s.identities| <= MAX_INT64 && Format(s).Some?
    requires 10 + |s.components| + Min(|s.identities|, 256) <= 320
    ensures Parse(Printed(Format(s).value), s.node) == Some(r) && ComesBackAs(s, r, rest)
  {
    PlainFacts(s);
    var ids := Sorted(s.identities);
    FactsReadable(s, ids);
    RoundTripExact(s);
    KeptComesBack(s, ids);
    r, rest := NormalOf(s, Kept(s), Whole(s), Omitted(s)), ids[Shown(s, ids)..];
  }
}
