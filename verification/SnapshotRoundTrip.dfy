/**
  Reading back the parts of a printed snapshot: its header, its mailboxes, its
  components and identities, and the trailer.
*/
module SnapshotRoundTrip {
  import opened Snapshot
  import opened SnapshotText
  import opened Text
  import opened Wrappers

  // ------------------------------------------------- reading a list of records

  function Reads(p: Parsing, index: nat, rs: seq<Record>): Option<Parsing>
    decreases |rs|
  {
    if rs == [] then Some(p)
    else
      match ParseRecord(p, index, rs[0])
      case None => None
      case Some(q) => Reads(q, index + 1, rs[1..])
  }

  lemma {:induction false} LinesRead(p: Parsing, index: nat, rs: seq<Record>)
    requires AllWords(rs)
    ensures ParseLines(p, index, Lines(rs)) == Reads(p, index, rs)
    decreases |rs|
  {
    if rs != [] {
      assert Words(rs[0]);
      FieldsOfJoin(rs[0]);
      assert Lines(rs)[1..] == Lines(rs[1..]);
      var q := ParseRecord(p, index, rs[0]);
      if q.Some? {
        LinesRead(q.value, index + 1, rs[1..]);
      }
    }
  }

  lemma {:induction false} ReadsOn(p: Parsing, index: nat, a: seq<Record>, b: seq<Record>)
    ensures Reads(p, index, a + b) ==
            match Reads(p, index, a) case None => None case Some(q) => Reads(q, index + |a|, b)
    decreases |a|
  {
    if a == [] {
      assert a + b == b;
    } else {
      assert (a + b)[1..] == a[1..] + b && (a + b)[0] == a[0];
      var q := ParseRecord(p, index, a[0]);
      if q.Some? {
        ReadsOn(q.value, index + 1, a[1..], b);
      }
    }
  }

  lemma ReadsOne(p: Parsing, index: nat, r: Record)
    ensures Reads(p, index, [r]) == ParseRecord(p, index, r)
  {
    var none: seq<Record> := [];
    assert [r][1..] == none;
  }

  lemma NumberParses(n: Int64)
    requires n >= 0
    ensures ParseNonneg(Dec(n)) == Some(n)
  {
    DecParses(n);
  }

  // ------------------------------------------------------------------- header

  function AfterTop(s: Listing, complete: bool): Parsing {
    START.(seen := {"node", "generation", "written-at", "interval", "state", "complete"},
           result := START.result.(node := s.node, generation := s.generation, writtenAt := s.writtenAt,
                                   interval := s.interval, state := s.state, complete := complete))
  }

  lemma TopReads(s: Listing, complete: bool, top: seq<Record>)
    requires HeaderOk(s) && top == HeaderTop(s, complete)
    ensures Reads(START, 1, top) == Some(AfterTop(s, complete))
  {
    NumberParses(s.generation);
    NumberParses(s.writtenAt);
    NumberParses(s.interval);
    var r := START.result;
    var p1 := START.(seen := START.seen + {"node"}, result := r.(node := s.node));
    var p2 := p1.(seen := p1.seen + {"generation"}, result := p1.result.(generation := s.generation));
    var p3 := p2.(seen := p2.seen + {"written-at"}, result := p2.result.(writtenAt := s.writtenAt));
    var p4 := p3.(seen := p3.seen + {"interval"}, result := p3.result.(interval := s.interval));
    var p5 := p4.(seen := p4.seen + {"state"}, result := p4.result.(state := s.state));
    SingleReads(START, 1, "node", s.node, p1.result);
    SingleReads(p1, 2, "generation", Dec(s.generation), p2.result);
    SingleReads(p2, 3, "written-at", Dec(s.writtenAt), p3.result);
    SingleReads(p3, 4, "interval", Dec(s.interval), p4.result);
    SingleReads(p4, 5, "state", s.state, p5.result);
    SingleReads(p5, 6, "complete", YesNo(complete), AfterTop(s, complete).result);
    assert p5.seen + {"complete"} == AfterTop(s, complete).seen;
    Six(START, p1, p2, p3, p4, p5, AfterTop(s, complete), 1, top);
  }

  lemma SingleReads(p: Parsing, index: nat, key: string, v: string, r: Listing)
    requires key in SINGLE && key != "mailbox" && key != "truncated" && key !in p.seen && ParseValue(p.result, key, v) == Some(r)
    ensures ParseRecord(p, index, [key, v]) == Some(p.(seen := p.seen + {key}, result := r))
  {
    assert "component" !in SINGLE && "identity" !in SINGLE;
  }

  lemma Six(p0: Parsing, p1: Parsing, p2: Parsing, p3: Parsing, p4: Parsing, p5: Parsing, p6: Parsing, i: nat, rs: seq<Record>)
    requires |rs| == 6
    requires ParseRecord(p0, i, rs[0]) == Some(p1) && ParseRecord(p1, i + 1, rs[1]) == Some(p2)
    requires ParseRecord(p2, i + 2, rs[2]) == Some(p3) && ParseRecord(p3, i + 3, rs[3]) == Some(p4)
    requires ParseRecord(p4, i + 4, rs[4]) == Some(p5) && ParseRecord(p5, i + 5, rs[5]) == Some(p6)
    ensures Reads(p0, i, rs) == Some(p6)
  {
    assert rs[1..][1..] == rs[2..] && rs[2..][1..] == rs[3..] && rs[3..][1..] == rs[4..] && rs[4..][1..] == rs[5..];
    assert rs[5..] == [rs[5]];
    ReadsOne(p5, i + 5, rs[5]);
    assert Reads(p4, i + 4, rs[4..]) == Some(p6);
    assert Reads(p3, i + 3, rs[3..]) == Some(p6);
    assert Reads(p2, i + 2, rs[2..]) == Some(p6);
    assert Reads(p1, i + 1, rs[1..]) == Some(p6);
  }

  function NormalComponents(cs: seq<Component>): (r: seq<Component>)
    ensures |r| == |cs|
  {
    if cs == [] then [] else [NormalComponent(cs[0])] + NormalComponents(cs[1..])
  }

  function Listed(p: Parsing, cs: seq<Component>): Parsing {
    p.(result := p.result.(components := p.result.components + NormalComponents(cs)))
  }

  lemma OneComponentReads(p: Parsing, index: nat, r: Record, rest: seq<Record>, c: Component)
    requires r != [] && r[0] == "component" && ParseComponent(r) == Some(c)
    ensures Reads(p, index, [r] + rest) == Reads(p.(result := p.result.(components := p.result.components + [c])), index + 1, rest)
  {
    assert ([r] + rest)[1..] == rest && ([r] + rest)[0] == r;
  }

  lemma {:induction false} ComponentsAreWords(cs: seq<Component>)
    ensures AllWords(ComponentRecords(cs))
  {
    if cs != [] {
      ComponentParses(cs[0]);
      ComponentsAreWords(cs[1..]);
    }
  }

  lemma {:induction false} ComponentsRead(p: Parsing, index: nat, cs: seq<Component>)
    ensures Reads(p, index, ComponentRecords(cs)) == Some(Listed(p, cs))
    decreases |cs|
  {
    if cs == [] {
      assert p.result.components + [] == p.result.components;
    } else {
      var c := NormalComponent(cs[0]);
      var q := p.(result := p.result.(components := p.result.components + [c]));
      ComponentParses(cs[0]);
      OneComponentReads(p, index, ComponentRecord(cs[0]), ComponentRecords(cs[1..]), c);
      ComponentsRead(q, index + 1, cs[1..]);
      Prepended(p.result.components, c, NormalComponents(cs[1..]));
    }
  }

  lemma Prepended(a: seq<Component>, c: Component, b: seq<Component>)
    ensures a + [c] + b == a + ([c] + b)
  {
  }

  // ---------------------------------------------------------------- mailboxes

  lemma {:induction false} InsertHas(v: string, vs: seq<string>)
    ensures forall u :: u in Insert(v, vs) <==> u == v || u in vs
  {
    if vs != [] && v != vs[0] && !Below(v, vs[0]) {
      InsertHas(v, vs[1..]);
      assert forall u :: u in vs <==> u == vs[0] || u in vs[1..];
    }
  }

  lemma {:induction false} UniqueHas(ms: seq<string>)
    ensures forall u :: u in SafeSortedUnique(ms) <==> exists m :: m in ms && Safe(m) == u
  {
    if ms != [] {
      UniqueHas(ms[1..]);
      InsertHas(Safe(ms[0]), SafeSortedUnique(ms[1..]));
      assert forall m :: m in ms <==> m == ms[0] || m in ms[1..];
    }
  }

  predicate Ascending(vs: seq<string>) {
    forall i, j :: 0 <= i < j < |vs| ==> Below(vs[i], vs[j])
  }

  lemma {:induction false} InsertAscends(v: string, vs: seq<string>)
    requires Ascending(vs)
    ensures Ascending(Insert(v, vs))
  {
    if vs != [] {
      BelowTotal(v, vs[0]);
      InsertHas(v, vs[1..]);
      if v != vs[0] && !Below(v, vs[0]) {
        InsertAscends(v, vs[1..]);
        var rest := Insert(v, vs[1..]);
        forall j | 0 <= j < |rest|
          ensures Below(vs[0], rest[j])
        {
          assert rest[j] in rest;
          if rest[j] != v {
            var k :| 0 <= k < |vs[1..]| && vs[1..][k] == rest[j];
            assert vs[k + 1] == rest[j];
          }
        }
      } else if v != vs[0] {
        forall j | 0 <= j < |vs|
          ensures Below(v, vs[j])
        {
          if j > 0 {
            BelowTransitive(v, vs[0], vs[j]);
          }
        }
      }
    }
  }

  lemma {:induction false} UniqueAscends(ms: seq<string>)
    ensures Ascending(SafeSortedUnique(ms))
  {
    if ms != [] {
      UniqueAscends(ms[1..]);
      InsertAscends(Safe(ms[0]), SafeSortedUnique(ms[1..]));
    }
  }

  // The reader accepts the mailbox line when all names are node names of at most
  // 64 bytes, or when none of them is printable.
  predicate MailboxesOk(ms: seq<string>) {
    (forall m :: m in ms ==> NodeName(m) && |m| <= 64) || (forall m :: m in ms ==> !ListenerValue(m) || m == "-")
  }

  function NormalMailboxes(ms: seq<string>): seq<string> {
    if SafeSortedUnique(ms) == ["-"] then [] else SafeSortedUnique(ms)
  }

  lemma NodeNameIsValue(m: string)
    requires NodeName(m) && |m| <= 64
    ensures ListenerValue(m) && m != "-"
  {
    assert forall c :: c in m ==> ValueChar(c);
  }

  lemma MailboxesExact(ms: seq<string>)
    ensures var vs := SafeSortedUnique(ms);
      MailboxesOk(ms) <==> vs == [] || vs == ["-"] || (forall v :: v in vs ==> NodeName(v))
  {
    var vs := SafeSortedUnique(ms);
    UniqueHas(ms);
    UniqueAscends(ms);
    forall m | m in ms
      ensures Safe(m) in vs && (NodeName(Safe(m)) <==> NodeName(m) && |m| <= 64) && (Safe(m) == "-" <==> !ListenerValue(m) || m == "-")
    {
      if NodeName(m) && |m| <= 64 {
        NodeNameIsValue(m);
      }
    }
    OnlyDash(vs);
  }

  lemma OnlyDash(vs: seq<string>)
    requires Ascending(vs)
    ensures (forall v :: v in vs ==> v == "-") <==> vs == [] || vs == ["-"]
  {
    if |vs| > 1 && forall v :: v in vs ==> v == "-" {
      assert vs[0] in vs && vs[1] in vs;
      BelowTotal(vs[0], vs[0]);
      assert false;
    }
    if |vs| == 1 {
      assert vs == [vs[0]] && vs[0] in vs;
    }
  }

  function AfterHeader(s: Listing, complete: bool): Parsing {
    var p := AfterTop(s, complete);
    p.(seen := MANDATORY,
       result := p.result.(components := NormalComponents(s.components), mailboxes := NormalMailboxes(s.mailboxes),
                           linkAge := if s.linkAge >= 0 then s.linkAge else -1))
  }

  lemma MailboxReads(p: Parsing, index: nat, ms: seq<string>)
    requires "mailbox" !in p.seen && p.result.mailboxes == []
    ensures ParseRecord(p, index, MailboxRecord(ms)) ==
            if MailboxesOk(ms) then Some(p.(seen := p.seen + {"mailbox"}, result := p.result.(mailboxes := NormalMailboxes(ms))))
            else None
  {
    var vs := SafeSortedUnique(ms);
    assert MailboxRecord(ms)[1..] == (if vs == [] then ["-"] else vs) && MailboxRecord(ms)[0] == "mailbox";
    assert "mailbox" in SINGLE;
    MailboxValues(p.result, ms);
  }

  lemma MailboxValues(r: Listing, ms: seq<string>)
    requires r.mailboxes == []
    ensures var vs := SafeSortedUnique(ms);
      ParseMailbox(r, if vs == [] then ["-"] else vs) ==
      if MailboxesOk(ms) then Some(r.(mailboxes := NormalMailboxes(ms))) else None
  {
    MailboxesExact(ms);
    var vs := SafeSortedUnique(ms);
    assert r.mailboxes + vs == vs;
    assert !NodeName("-");
    assert vs == [] ==> NormalMailboxes(ms) == [];
  }

  lemma LinkReads(p: Parsing, index: nat, s: Listing)
    requires "link" !in p.seen && p.result.linkAge == -1
    ensures ParseRecord(p, index, ["link", if s.linkAge >= 0 then Dec(s.linkAge) else "-"]) ==
            Some(p.(seen := p.seen + {"link"}, result := p.result.(linkAge := if s.linkAge >= 0 then s.linkAge else -1)))
  {
    if s.linkAge >= 0 {
      NumberParses(s.linkAge);
      assert Dec(s.linkAge) != "-" by { assert Dec(s.linkAge)[0] in Dec(s.linkAge); }
      SingleReads(p, index, "link", Dec(s.linkAge), p.result.(linkAge := s.linkAge));
    } else {
      SingleReads(p, index, "link", "-", p.result);
    }
  }

  lemma EndReads(p: Parsing, index: nat, s: Listing)
    requires "mailbox" !in p.seen && "link" !in p.seen && p.result.mailboxes == [] && p.result.linkAge == -1
    ensures Reads(p, index, HeaderEnd(s)) ==
            if MailboxesOk(s.mailboxes) then
              Some(p.(seen := p.seen + {"mailbox"} + {"link"},
                      result := p.result.(mailboxes := NormalMailboxes(s.mailboxes), linkAge := if s.linkAge >= 0 then s.linkAge else -1)))
            else None
  {
    var link := ["link", if s.linkAge >= 0 then Dec(s.linkAge) else "-"];
    MailboxReads(p, index, s.mailboxes);
    assert HeaderEnd(s)[1..] == [link];
    if MailboxesOk(s.mailboxes) {
      var q := p.(seen := p.seen + {"mailbox"}, result := p.result.(mailboxes := NormalMailboxes(s.mailboxes)));
      LinkReads(q, index + 1, s);
      ReadsOne(q, index + 1, link);
    }
  }

  // The header after its first line.
  function HeaderRest(s: Listing, complete: bool): seq<Record>
    requires HeaderOk(s)
  {
    HeaderTop(s, complete) + ComponentRecords(s.components) + HeaderEnd(s)
  }

  lemma {:induction false} ComponentCount(cs: seq<Component>)
    ensures |ComponentRecords(cs)| == |cs|
  {
    if cs != [] {
      ComponentCount(cs[1..]);
    }
  }

  lemma ThreeRead(p: Parsing, i: nat, a: seq<Record>, b: seq<Record>, c: seq<Record>, q: Parsing, r: Parsing)
    requires Reads(p, i, a) == Some(q) && Reads(q, i + |a|, b) == Some(r)
    ensures Reads(p, i, a + b + c) == Reads(r, i + |a| + |b|, c)
  {
    ReadsOn(p, i, a + b, c);
    ReadsOn(p, i, a, b);
  }

  function WithComponents(p: Parsing, cs: seq<Component>): Parsing {
    p.(result := p.result.(components := NormalComponents(cs)))
  }

  lemma ComponentsAfterTop(s: Listing, complete: bool)
    ensures Reads(AfterTop(s, complete), 7, ComponentRecords(s.components)) ==
            Some(WithComponents(AfterTop(s, complete), s.components))
  {
    var p := AfterTop(s, complete);
    ComponentsRead(p, 7, s.components);
    assert p.result.components + NormalComponents(s.components) == NormalComponents(s.components);
  }

  lemma TopThenComponents(s: Listing, complete: bool, top: seq<Record>, cs: seq<Record>, end: seq<Record>)
    requires HeaderOk(s) && top == HeaderTop(s, complete) && cs == ComponentRecords(s.components)
    ensures Reads(START, 1, top + cs + end) ==
            Reads(WithComponents(AfterTop(s, complete), s.components), 7 + |s.components|, end)
  {
    TopReads(s, complete, top);
    ComponentsAfterTop(s, complete);
    ComponentCount(s.components);
    ThreeRead(START, 1, top, cs, end, AfterTop(s, complete), WithComponents(AfterTop(s, complete), s.components));
  }

  lemma HeaderReads(s: Listing, complete: bool)
    requires HeaderOk(s)
    ensures Reads(START, 1, HeaderRest(s, complete)) == if MailboxesOk(s.mailboxes) then Some(AfterHeader(s, complete)) else None
  {
    TopThenComponents(s, complete, HeaderTop(s, complete), ComponentRecords(s.components), HeaderEnd(s));
    EndAfterTop(s, complete);
  }

  lemma EndAfterTop(s: Listing, complete: bool)
    ensures Reads(WithComponents(AfterTop(s, complete), s.components), 7 + |s.components|, HeaderEnd(s)) ==
            if MailboxesOk(s.mailboxes) then Some(AfterHeader(s, complete)) else None
  {
    var q := WithComponents(AfterTop(s, complete), s.components);
    EndReads(q, 7 + |s.components|, s);
    assert q.seen + {"mailbox"} + {"link"} == MANDATORY;
  }

  // --------------------------------------------------------------- identities

  function NormalIdentities(ids: seq<Identity>): (r: seq<Identity>)
    ensures |r| == |ids|
  {
    if ids == [] then [] else [NormalIdentity(ids[0])] + NormalIdentities(ids[1..])
  }

  function SafeNames(ids: seq<Identity>): set<string> {
    set i | i in ids :: Safe(i.name)
  }

  // No name occurs twice, nor is it in `names`.
  predicate NewNames(ids: seq<Identity>, names: set<string>) {
    ids == [] || (Safe(ids[0].name) !in names && NewNames(ids[1..], names + {Safe(ids[0].name)}))
  }

  // Distinct names, none of them in `names`.
  predicate NamesApart(ids: seq<Identity>, names: set<string>) {
    && (forall i :: i in ids ==> Safe(i.name) !in names)
    && (forall a, b :: 0 <= a < b < |ids| ==> Safe(ids[a].name) != Safe(ids[b].name))
  }

  lemma ApartOn(ids: seq<Identity>, names: set<string>)
    requires ids != [] && Safe(ids[0].name) !in names && NamesApart(ids[1..], names + {Safe(ids[0].name)})
    ensures NamesApart(ids, names)
  {
    assert forall i :: i in ids <==> i == ids[0] || i in ids[1..];
    forall a, b | 0 <= a < b < |ids|
      ensures Safe(ids[a].name) != Safe(ids[b].name)
    {
      assert ids[b] == ids[1..][b - 1];
      if a > 0 {
        assert ids[a] == ids[1..][a - 1];
      } else {
        assert ids[b] in ids[1..];
      }
    }
  }

  lemma ApartBefore(ids: seq<Identity>, names: set<string>)
    requires ids != [] && NamesApart(ids, names)
    ensures Safe(ids[0].name) !in names && NamesApart(ids[1..], names + {Safe(ids[0].name)})
  {
    var rest := ids[1..];
    assert ids[0] in ids && forall b :: 0 <= b < |rest| ==> rest[b] == ids[b + 1] && rest[b] in ids;
    forall i | i in rest
      ensures Safe(i.name) !in names + {Safe(ids[0].name)}
    {
      var b :| 0 <= b < |rest| && rest[b] == i;
      assert ids[b + 1] == i;
    }
  }

  lemma {:induction false} NewNamesExact(ids: seq<Identity>, names: set<string>)
    ensures NewNames(ids, names) <==> NamesApart(ids, names)
    decreases |ids|
  {
    if ids != [] {
      NewNamesExact(ids[1..], names + {Safe(ids[0].name)});
      if NewNames(ids, names) {
        ApartOn(ids, names);
      }
      if NamesApart(ids, names) {
        ApartBefore(ids, names);
      }
    }
  }

  function Known(p: Parsing, i: Identity): Parsing {
    p.(names := p.names + {i.name}, result := p.result.(identities := p.result.identities + [i]))
  }

  function AllKnown(p: Parsing, ids: seq<Identity>): Parsing {
    p.(names := p.names + SafeNames(ids), result := p.result.(identities := p.result.identities + NormalIdentities(ids)))
  }

  lemma KnownOn(p: Parsing, ids: seq<Identity>)
    requires ids != []
    ensures AllKnown(Known(p, NormalIdentity(ids[0])), ids[1..]) == AllKnown(p, ids)
  {
    var i := NormalIdentity(ids[0]);
    assert p.result.identities + [i] + NormalIdentities(ids[1..]) == p.result.identities + NormalIdentities(ids);
    assert SafeNames(ids) == {i.name} + SafeNames(ids[1..]) by {
      assert forall j :: j in ids <==> j == ids[0] || j in ids[1..];
    }
    assert p.names + {i.name} + SafeNames(ids[1..]) == p.names + SafeNames(ids);
  }

  lemma OneIdentityReads(p: Parsing, index: nat, r: Record, rest: seq<Record>, i: Identity)
    requires r != [] && r[0] == "identity" && ParseIdentity(r[1..]) == Some(i)
    ensures Reads(p, index, [r] + rest) == if i.name in p.names then None else Reads(Known(p, i), index + 1, rest)
  {
    IdentityRecordKind(p, index, r, i);
    assert ([r] + rest)[1..] == rest && ([r] + rest)[0] == r;
  }

  lemma {:induction false} IdentitiesAreWords(ids: seq<Identity>)
    requires forall i :: i in ids ==> Printable(i)
    ensures AllWords(IdentityRecords(ids))
    decreases |ids|
  {
    if ids != [] {
      assert ids[0] in ids;
      IdentityParses(ids[0]);
      IdentitiesAreWords(ids[1..]);
    }
  }

  lemma {:induction false} IdentitiesRead(p: Parsing, index: nat, ids: seq<Identity>)
    requires forall i :: i in ids ==> Printable(i)
    ensures Reads(p, index, IdentityRecords(ids)) == if NewNames(ids, p.names) then Some(AllKnown(p, ids)) else None
    decreases |ids|
  {
    if ids == [] {
      assert p.result.identities + [] == p.result.identities && p.names + SafeNames(ids) == p.names;
    } else {
      assert ids[0] in ids;
      IdentityParses(ids[0]);
      OneIdentityReads(p, index, IdentityRecord(ids[0]), IdentityRecords(ids[1..]), NormalIdentity(ids[0]));
      IdentitiesRead(Known(p, NormalIdentity(ids[0])), index + 1, ids[1..]);
      KnownOn(p, ids);
    }
  }

  lemma IdentityRecordKind(p: Parsing, index: nat, r: Record, i: Identity)
    requires r != [] && r[0] == "identity" && ParseIdentity(r[1..]) == Some(i)
    ensures ParseRecord(p, index, r) ==
            if i.name in p.names then None
            else Some(p.(names := p.names + {i.name}, result := p.result.(identities := p.result.identities + [i])))
  {
  }

  lemma TrailerReads(p: Parsing, index: nat, omitted: nat)
    requires "truncated" !in p.seen && omitted <= MAX_INT64
    ensures ParseRecord(p, index, Trailer(omitted)) ==
            Some(p.(seen := p.seen + {"truncated"}, result := p.result.(truncated := omitted), truncatedAt := index))
  {
    NumberParses(omitted);
    assert "truncated" in SINGLE;
  }
}
