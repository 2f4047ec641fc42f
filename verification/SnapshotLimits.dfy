/**
  The limits of the printed snapshot: sorting loses nothing, no identity record is
  too long, a cut leaves something out and stops only when it must.
*/
module SnapshotLimits {
  import opened Snapshot
  import opened SnapshotSafety
  import opened SnapshotText
  import opened Text
  import opened Wrappers

  // ------------------------------------------------------------------ sorting

  predicate ByName(ids: seq<Identity>) {
    forall a, b :: 0 <= a < b < |ids| ==> !Below(Safe(ids[b].name), Safe(ids[a].name))
  }

  lemma {:induction false} InsertHas(i: Identity, ids: seq<Identity>)
    ensures multiset(InsertIdentity(i, ids)) == multiset(ids) + multiset{i}
    ensures forall j :: j in InsertIdentity(i, ids) <==> j == i || j in ids
    ensures |InsertIdentity(i, ids)| == |ids| + 1
  {
    if ids != [] && Below(Safe(ids[0].name), Safe(i.name)) {
      InsertHas(i, ids[1..]);
      assert ids == [ids[0]] + ids[1..];
    }
  }

  // No name of ids comes before name.
  predicate NoneBelow(ids: seq<Identity>, name: string) {
    forall j :: j in ids ==> !Below(Safe(j.name), name)
  }

  lemma ConsByName(i: Identity, ids: seq<Identity>)
    requires ByName(ids) && NoneBelow(ids, Safe(i.name))
    ensures ByName([i] + ids)
  {
    forall a, b | 0 <= a < b < |[i] + ids|
      ensures !Below(Safe(([i] + ids)[b].name), Safe(([i] + ids)[a].name))
    {
      assert ([i] + ids)[b] == ids[b - 1] && ids[b - 1] in ids;
    }
  }

  lemma HeadByName(ids: seq<Identity>)
    requires ByName(ids) && ids != []
    ensures NoneBelow(ids[1..], Safe(ids[0].name)) && ByName(ids[1..])
  {
    forall j | j in ids[1..]
      ensures !Below(Safe(j.name), Safe(ids[0].name))
    {
      var k :| 0 <= k < |ids[1..]| && ids[1..][k] == j;
      assert ids[k + 1] == j;
    }
  }

  lemma {:induction false} InsertByName(i: Identity, ids: seq<Identity>)
    requires ByName(ids)
    ensures ByName(InsertIdentity(i, ids))
  {
    if ids != [] {
      HeadByName(ids);
      if Below(Safe(ids[0].name), Safe(i.name)) {
        InsertByName(i, ids[1..]);
        InsertHas(i, ids[1..]);
        BelowTotal(Safe(i.name), Safe(ids[0].name));
        ConsByName(ids[0], InsertIdentity(i, ids[1..]));
      } else {
        forall j | j in ids
          ensures !Below(Safe(j.name), Safe(i.name))
        {
          if j != ids[0] {
            assert j in ids[1..];
          }
          NotBelowOn(Safe(i.name), Safe(ids[0].name), Safe(j.name));
        }
        ConsByName(i, ids);
      }
    }
  }

  lemma NotBelowOn(a: string, b: string, c: string)
    requires !Below(b, a) && (c == b || !Below(c, b))
    ensures !Below(c, a)
  {
    BelowTotal(a, b);
    BelowTotal(b, c);
    BelowTotal(a, c);
    if Below(a, b) && Below(b, c) {
      BelowTransitive(a, b, c);
    }
  }

  // The printed identities are the given ones, in the order of their safe names.
  lemma {:induction false} SortedByName(ids: seq<Identity>)
    ensures ByName(Sorted(ids)) && multiset(Sorted(ids)) == multiset(ids) && |Sorted(ids)| == |ids|
  {
    if ids != [] {
      SortedByName(ids[1..]);
      InsertByName(ids[0], Sorted(ids[1..]));
      InsertHas(ids[0], Sorted(ids[1..]));
      assert ids == [ids[0]] + ids[1..];
    }
  }

  // ------------------------------------------------------------ record lengths

  function Total(ws: seq<string>): nat {
    if ws == [] then 0 else |ws[0]| + 1 + Total(ws[1..])
  }

  lemma {:induction false} JoinLength(ws: seq<string>)
    requires ws != []
    ensures |Join(ws)| + 1 == Total(ws)
  {
    if |ws| == 1 {
      assert ws[1..] == [];
    } else {
      JoinLength(ws[1..]);
    }
  }

  // How much room the tokens of an identity record may take from the k-th on,
  // separators included.
  const ROOM: seq<nat> := [756, 686, 668, 654, 633, 618, 550, 534, 501, 468, 431, 355, 324, 289, 255, 222, 191, 108, 26, 0]

  lemma {:induction false} TokensTotal(ps: seq<(string, string)>, k: nat)
    requires |ps| == 19 && k <= 19 && forall a :: 0 <= a < 19 ==> |ps[a].0| + |ps[a].1| + 2 + ROOM[a + 1] <= ROOM[a]
    ensures Total(Tokens(ps[k..])) <= ROOM[k]
    decreases 19 - k
  {
    if k < 19 {
      TokensTotal(ps, k + 1);
      assert ps[k..][1..] == ps[k + 1..] && ps[k..][0] == ps[k];
      assert Tokens(ps[k..])[1..] == Tokens(ps[k + 1..]);
    }
  }

  lemma EnumWidths(i: Identity)
    requires EnumsOk(i)
    ensures |i.principal| <= 7 && |i.route| <= 14 && |i.phase| <= 8 && |i.reason| <= 8 && |i.drainStatus| <= 7
  {
  }

  lemma IdentityWidths(i: Identity, a: nat)
    requires Printable(i) && a < 19
    ensures |Pairs(i)[a].0| + |Pairs(i)[a].1| + 2 + ROOM[a + 1] <= ROOM[a]
  {
    EnumWidths(i);
    SafeIsValue(i.name);
    SafeIsValue(i.cc);
    SafeIsValue(i.generation);
    SafeIsValue(i.drainBefore);
    SafeIsValue(i.drainAfter);
    DecIsValue(i.pendingRing);
    DecIsValue(i.pendingInfo);
    DecIsValue(i.pendingOperator);
    DecIsValue(i.firstSeen);
    DecIsValue(i.oldestPending);
    DecIsValue(i.writtenRings);
    DecIsValue(i.lastWritten);
    DecIsValue(i.lastDrain);
  }

  lemma TokenRecordShort(ps: seq<(string, string)>)
    requires |ps| == 19 && forall a :: 0 <= a < 19 ==> |ps[a].0| + |ps[a].1| + 2 + ROOM[a + 1] <= ROOM[a]
    ensures |Join(["identity"] + Tokens(ps))| <= 764
  {
    TokensTotal(ps, 0);
    assert ps[0..] == ps;
    JoinLength(["identity"] + Tokens(ps));
    assert (["identity"] + Tokens(ps))[1..] == Tokens(ps);
  }

  // The error "identity record exceeds 1024 bytes" cannot occur.
  lemma IdentityRecordShort(i: Identity)
    requires Printable(i)
    ensures |Join(IdentityRecord(i))| <= 764 < MAX_RECORD_BYTES
  {
    forall a: nat | a < 19
      ensures |Pairs(i)[a].0| + |Pairs(i)[a].1| + 2 + ROOM[a + 1] <= ROOM[a]
    {
      IdentityWidths(i, a);
    }
    TokenRecordShort(Pairs(i));
  }

  lemma {:induction false} IdentityRecordsShort(ids: seq<Identity>)
    requires AllPrintable(ids)
    ensures ShortRecords(IdentityRecords(ids))
  {
    if ids != [] {
      assert ids[0] in ids;
      IdentityRecordShort(ids[0]);
      IdentityRecordsShort(ids[1..]);
    }
  }

  // ------------------------------------------------------------- the cut

  lemma {:induction false} LinesJoin(a: seq<Record>, b: seq<Record>)
    ensures Lines(a + b) == Lines(a) + Lines(b)
  {
    if a == [] {
      assert a + b == b;
    } else {
      LinesJoin(a[1..], b);
      assert (a + b)[1..] == a[1..] + b && (a + b)[0] == a[0];
      assert [Join(a[0])] + (Lines(a[1..]) + Lines(b)) == [Join(a[0])] + Lines(a[1..]) + Lines(b);
    }
  }

  lemma PrintedJoin(a: seq<Record>, b: seq<Record>)
    ensures |Printed(a + b)| == |Printed(a)| + |Printed(b)|
  {
    LinesJoin(a, b);
    UnlinesAppends(Lines(a), Lines(b));
  }

  lemma PrintedOne(r: Record)
    ensures |Printed([r])| == |Join(r)| + 1
  {
    var none: seq<Record> := [];
    assert [r][1..] == none && Lines(none) == [] && Unlines([]) == "";
    assert Lines([r]) == [Join(r)];
    assert [Join(r)][1..] == [];
  }

  // What the loop that cuts the list has established when it stops at n.
  lemma {:induction false} FittingStops(used: nat, lines: seq<string>, written: nat)
    requires written <= |lines|
    ensures var n := Fitting(used, lines, written);
      && (n == |lines| || n >= WRITER_MAX_IDENTITIES ||
          used + |Unlines(lines[written..n])| + |lines[n]| + 1 + TrailerSize(|lines| - n - 1) > WRITER_MAX_BYTES)
      && (n > written ==> used + |Unlines(lines[written..n])| + TrailerSize(|lines| - n) <= WRITER_MAX_BYTES)
      && (written <= WRITER_MAX_IDENTITIES ==> n <= WRITER_MAX_IDENTITIES)
    decreases |lines| - written
  {
    var n := Fitting(used, lines, written);
    if n == written {
      assert lines[written..n] == [];
    } else {
      FittingStops(used + |lines[written]| + 1, lines, written + 1);
      assert lines[written..n] == [lines[written]] + lines[written + 1..n];
      assert |Unlines(lines[written..n])| == |lines[written]| + 1 + |Unlines(lines[written + 1..n])| by {
        assert lines[written..n][1..] == lines[written + 1..n];
      }
      if n == written + 1 {
        assert lines[written + 1..n] == [];
      }
    }
  }

  lemma {:induction false} PrintedPrefix(rs: seq<Record>, n: nat)
    requires n <= |rs|
    ensures Unlines(Lines(rs)[..n]) == Printed(rs[..n])
  {
    LinesJoin(rs[..n], rs[n..]);
    assert rs == rs[..n] + rs[n..];
    assert Lines(rs)[..n] == Lines(rs[..n]);
  }

  // The text if n identities were shown.
  function Candidate(header: seq<Record>, ids: seq<Record>, n: nat): seq<Record>
    requires n <= |ids|
  {
    header + ids[..n] + [Trailer(|ids| - n)]
  }

  lemma CandidateSize(header: seq<Record>, ids: seq<Record>, n: nat)
    requires n <= |ids|
    ensures |Printed(Candidate(header, ids, n))| == |Printed(header)| + |Unlines(Lines(ids)[..n])| + TrailerSize(|ids| - n)
  {
    PrintedJoin(header + ids[..n], [Trailer(|ids| - n)]);
    PrintedJoin(header, ids[..n]);
    PrintedOne(Trailer(|ids| - n));
    PrintedPrefix(ids, n);
  }

  lemma FittingIsMaximal(header: seq<Record>, ids: seq<Record>)
    ensures var n := Fitting(|Printed(header)|, Lines(ids), 0);
      && n <= WRITER_MAX_IDENTITIES
      && (n < |ids| ==> n == WRITER_MAX_IDENTITIES || |Printed(Candidate(header, ids, n + 1))| > WRITER_MAX_BYTES)
  {
    var n := Fitting(|Printed(header)|, Lines(ids), 0);
    FittingStops(|Printed(header)|, Lines(ids), 0);
    assert Lines(ids)[0..n] == Lines(ids)[..n];
    if n < |ids| {
      CandidateSize(header, ids, n + 1);
      assert Lines(ids)[..n + 1] == Lines(ids)[..n] + [Lines(ids)[n]];
      UnlinesAppends(Lines(ids)[..n], [Lines(ids)[n]]);
      OneLineLength(Lines(ids)[n]);
    }
  }

  // A cut snapshot shows as many identities as fit: with one more, the text would
  // be too long or hold more than 256.
  lemma CutIsMaximal(s: Listing)
    requires Ready(s) && !Whole(s)
    ensures var n := Shown(s, Sorted(s.identities));
      && n <= WRITER_MAX_IDENTITIES
      && (n < |Sorted(s.identities)| ==>
            || n == WRITER_MAX_IDENTITIES
            || |Printed(Candidate(Header(s, false), IdentityRecords(Sorted(s.identities)), n + 1))| > WRITER_MAX_BYTES)
  {
    FittingIsMaximal(Header(s, false), IdentityRecords(Sorted(s.identities)));
  }

  lemma OneLineLength(l: string)
    ensures |Unlines([l])| == |l| + 1
  {
    assert [l][1..] == [] && Unlines([]) == "";
  }

  lemma HeaderShrinks(s: Listing)
    requires HeaderOk(s)
    ensures |Printed(Header(s, true))| == |Printed(Header(s, false))| + 1
  {
    var top := [["ears", "1"], ["node", s.node], ["generation", Dec(s.generation)], ["written-at", Dec(s.writtenAt)],
                ["interval", Dec(s.interval)], ["state", s.state]];
    var end := ComponentRecords(s.components) + HeaderEnd(s);
    HeaderParts(s, true, top, end);
    HeaderParts(s, false, top, end);
    PrintedJoin(top + [["complete", "yes"]], end);
    PrintedJoin(top + [["complete", "no"]], end);
    PrintedJoin(top, [["complete", "yes"]]);
    PrintedJoin(top, [["complete", "no"]]);
    PrintedOne(["complete", "yes"]);
    PrintedOne(["complete", "no"]);
    assert ["complete", "yes"][1..] == ["yes"] && ["complete", "no"][1..] == ["no"];
  }

  lemma HeaderParts(s: Listing, complete: bool, top: seq<Record>, end: seq<Record>)
    requires HeaderOk(s) && end == ComponentRecords(s.components) + HeaderEnd(s)
    requires top == [["ears", "1"], ["node", s.node], ["generation", Dec(s.generation)], ["written-at", Dec(s.writtenAt)],
                     ["interval", Dec(s.interval)], ["state", s.state]]
    ensures Header(s, complete) == top + [["complete", YesNo(complete)]] + end
  {
    assert [["ears", "1"]] + HeaderTop(s, complete) == top + [["complete", YesNo(complete)]];
    assert Header(s, complete) == ([["ears", "1"]] + HeaderTop(s, complete)) + end;
  }

  // If everything fits with an empty trailer, it fits without one.
  lemma NothingLeftOut(header: seq<Record>, whole: seq<Record>, ids: seq<Record>)
    requires |Printed(whole)| == |Printed(header)| + 1
    ensures |Printed(whole + ids)| <= |Printed(Candidate(header, ids, |ids|))|
  {
    CandidateSize(header, ids, |ids|);
    assert Lines(ids)[..|ids|] == Lines(ids);
    PrintedJoin(whole, ids);
    assert |Join(Trailer(0))| >= 1;
  }

  // An incomplete snapshot leaves out at least one identity.
  lemma CutLeavesOut(s: Listing)
    requires Format(s).Some? && Ready(s) && !Whole(s)
    ensures Omitted(s) >= 1
  {
    if Omitted(s) == 0 {
      var ids := Sorted(s.identities);
      CutIsMaximal(s);
      HeaderShrinks(s);
      NothingLeftOut(Header(s, false), Header(s, true), IdentityRecords(ids));
      Shape(s);
      assert Kept(s) == ids by { assert ids[..|ids|] == ids; }
      FullCandidate(Header(s, false), IdentityRecords(ids));
    }
  }

  lemma FullCandidate(header: seq<Record>, ids: seq<Record>)
    ensures Candidate(header, ids, |ids|) == header + ids + [Trailer(0)]
  {
    assert ids[..|ids|] == ids;
  }

  // ------------------------------------------------------- when printing fails

  lemma HeaderShort(s: Listing)
    requires HeaderOk(s)
    ensures ShortRecords(Header(s, true)) <==> ShortRecords(Header(s, false))
  {
    var top := [["ears", "1"], ["node", s.node], ["generation", Dec(s.generation)], ["written-at", Dec(s.writtenAt)],
                ["interval", Dec(s.interval)], ["state", s.state]];
    var end := ComponentRecords(s.components) + HeaderEnd(s);
    HeaderParts(s, true, top, end);
    HeaderParts(s, false, top, end);
    assert ["complete", "yes"][1..] == ["yes"] && ["complete", "no"][1..] == ["no"];
    ShortMiddle(top, ["complete", "yes"], end);
    ShortMiddle(top, ["complete", "no"], end);
  }

  lemma ShortMiddle(a: seq<Record>, r: Record, b: seq<Record>)
    requires |Join(r)| <= MAX_RECORD_BYTES
    ensures ShortRecords(a + [r] + b) <==> ShortRecords(a) && ShortRecords(b)
  {
    assert forall x :: x in a + [r] + b <==> x in a || x == r || x in b;
  }

  lemma FittingFits(header: seq<Record>, ids: seq<Record>)
    ensures var n := Fitting(|Printed(header)|, Lines(ids), 0);
      && (n > 0 ==> |Printed(Candidate(header, ids, n))| <= WRITER_MAX_BYTES)
      && (n == 0 ==> |Printed(Candidate(header, ids, n))| == |Printed(header)| + TrailerSize(|ids|))
  {
    FittingLeaves(|Printed(header)|, Lines(ids));
    CandidateSize(header, ids, Fitting(|Printed(header)|, Lines(ids), 0));
  }

  lemma FittingLeaves(used: nat, lines: seq<string>)
    ensures var n := Fitting(used, lines, 0);
      if n > 0 then used + |Unlines(lines[..n])| + TrailerSize(|lines| - n) <= WRITER_MAX_BYTES else |Unlines(lines[..n])| == 0
  {
    var n := Fitting(used, lines, 0);
    FittingStops(used, lines, 0);
    assert lines[0..n] == lines[..n];
  }

  lemma CutSize(s: Listing)
    requires Ready(s) && !Whole(s)
    ensures var ids := IdentityRecords(Sorted(s.identities)); var n := Shown(s, Sorted(s.identities));
      && (n > 0 ==> |Printed(Candidate(Header(s, false), ids, n))| <= WRITER_MAX_BYTES)
      && (n == 0 ==> |Printed(Candidate(Header(s, false), ids, n))| == |Printed(Header(s, false))| + TrailerSize(|ids|))
  {
    FittingFits(Header(s, false), IdentityRecords(Sorted(s.identities)));
  }

  lemma FormatCut(s: Listing)
    requires Ready(s) && !Whole(s) && ShortRecords(Header(s, false))
    ensures Format(s).Some? <==>
      |Printed(Candidate(Header(s, false), IdentityRecords(Sorted(s.identities)), Shown(s, Sorted(s.identities))))| <= WRITER_MAX_BYTES
  {
    var ids := Sorted(s.identities);
    IdentityRecordsShort(ids);
    HeaderShort(s);
    PrefixRecords(ids, Shown(s, ids));
  }

  lemma FormatFails(s: Listing)
    requires Format(s).Some?
    ensures Ready(s) || |Sorted(s.identities)| > MAX_INT64
    ensures HeaderOk(s) && ShortRecords(Header(s, false))
  {
    HeaderShort(s);
  }

  lemma FormatWhole(s: Listing)
    requires Ready(s) && Whole(s) && ShortRecords(Header(s, false))
    ensures Format(s).Some?
  {
    IdentityRecordsShort(Sorted(s.identities));
    HeaderShort(s);
  }

  // The printer reports an error exactly for a bad header, an identity with values
  // outside the format, a header line above 1,024 bytes, or a header that leaves no
  // room for the trailer. No identity record is ever too long.
  lemma FormatsExact(s: Listing)
    requires |Sorted(s.identities)| <= MAX_INT64
    ensures Format(s).Some? <==>
      && Ready(s) && ShortRecords(Header(s, false))
      && (Whole(s) || Shown(s, Sorted(s.identities)) > 0 ||
          |Printed(Header(s, false))| + TrailerSize(|s.identities|) <= WRITER_MAX_BYTES)
  {
    SortedByName(s.identities);
    if Format(s).Some? {
      FormatFails(s);
    }
    if Ready(s) && ShortRecords(Header(s, false)) {
      if Whole(s) {
        FormatWhole(s);
      } else {
        FormatCut(s);
        CutSize(s);
      }
    }
  }

  // ------------------------------------------------ a text that cannot be read

  lemma {:induction false} ShortPrinted(rs: seq<Record>)
    requires ShortRecords(rs)
    ensures |Printed(rs)| <= |rs| * (MAX_RECORD_BYTES + 1)
  {
    if rs != [] {
      ShortPrinted(rs[1..]);
      assert Lines(rs)[1..] == Lines(rs[1..]);
    }
  }

  lemma {:induction false} FewWords(ws: seq<string>)
    requires forall w :: w in ws ==> |w| <= 80
    ensures Total(ws) <= |ws| * 81
  {
    if ws != [] {
      assert ws[0] in ws;
      FewWords(ws[1..]);
    }
  }

  lemma FewWordsShort(r: Record)
    requires 0 < |r| <= 5 && forall w :: w in r ==> |w| <= 80
    ensures |Join(r)| <= MAX_RECORD_BYTES
  {
    FewWords(r);
    JoinLength(r);
  }

  function Twin(name: string): Identity {
    Identity(name, "session", false, "none", "-", "-", "-", 0, 0, 0, "-", 0, 0, 0, 0, 0, "-", "-", "ok")
  }

  function Twins(a: string, b: string): Listing {
    Listing("n", 1, 1, 1, "running", true, [Component("c", "r", "a", "e")], [], -1, [Twin(a), Twin(b)], 0)
  }

  lemma TwinsEnds(s: Listing)
    requires s.mailboxes == [] && s.linkAge == -1
    ensures ShortRecords(HeaderEnd(s)) && |HeaderEnd(s)| == 2
  {
    assert MailboxRecord(s.mailboxes) == ["mailbox", "-"];
    FewWordsShort(["mailbox", "-"]);
    FewWordsShort(["link", "-"]);
  }

  lemma {:induction false} TokenWidths(ps: seq<(string, string)>)
    requires forall p :: p in ps ==> |p.0| <= 7 && |p.1| <= 64
    ensures |Tokens(ps)| == |ps| && forall w :: w in Tokens(ps) ==> |w| <= 80
  {
    if ps != [] {
      assert ps[0] in ps;
      TokenWidths(ps[1..]);
    }
  }

  lemma ComponentShort(c: Component)
    ensures |Join(ComponentRecord(c))| <= MAX_RECORD_BYTES
  {
    SafeIsValue(c.name);
    SafeIsValue(c.release);
    SafeIsValue(c.adapter);
    SafeIsValue(c.ears);
    TokenWidths(ComponentPairs(c));
    FewWordsShort(ComponentRecord(c));
  }

  lemma OneComponentShort(c: Component, cs: seq<Component>)
    requires cs == [c]
    ensures ShortRecords(ComponentRecords(cs)) && |ComponentRecords(cs)| == 1
  {
    ComponentShort(c);
    var none: seq<Component> := [];
    assert cs[1..] == none && ComponentRecords(cs) == [ComponentRecord(c)];
  }

  lemma TwinsTop(s: Listing)
    requires HeaderOk(s) && s.node == "n" && s.generation == s.writtenAt == s.interval == 1
    ensures ShortRecords(HeaderTop(s, true)) && |HeaderTop(s, true)| == 6
  {
    assert Dec(1) == "1";
    forall r | r in HeaderTop(s, true)
      ensures |Join(r)| <= MAX_RECORD_BYTES
    {
      FewWordsShort(r);
    }
  }

  lemma TwinsHeader(a: string, b: string)
    ensures HeaderOk(Twins(a, b)) && ShortRecords(Header(Twins(a, b), true)) && |Header(Twins(a, b), true)| == 10
  {
    var s := Twins(a, b);
    assert NodeName("n");
    TwinsTop(s);
    OneComponentShort(s.components[0], s.components);
    TwinsEnds(s);
    FewWordsShort(["ears", "1"]);
    ShortJoin([["ears", "1"]], HeaderTop(s, true));
    ShortJoin([["ears", "1"]] + HeaderTop(s, true), ComponentRecords(s.components));
    ShortJoin([["ears", "1"]] + HeaderTop(s, true) + ComponentRecords(s.components), HeaderEnd(s));
  }

  lemma TwinsPrintable(a: string, b: string, ids: seq<Identity>)
    requires multiset(ids) == multiset([Twin(a), Twin(b)])
    ensures AllPrintable(ids)
  {
    forall i | i in ids
      ensures Printable(i)
    {
      assert i in multiset(ids);
    }
  }

  lemma TwinsWhole(a: string, b: string)
    ensures Ready(Twins(a, b)) && Whole(Twins(a, b)) && Kept(Twins(a, b)) == Sorted([Twin(a), Twin(b)])
  {
    var s := Twins(a, b);
    var ids := Sorted(s.identities);
    TwinsHeader(a, b);
    SortedByName(s.identities);
    TwinsPrintable(a, b, ids);
    IdentityRecordsShort(ids);
    ShortJoin(Header(s, true), IdentityRecords(ids));
    ShortPrinted(Header(s, true) + IdentityRecords(ids));
  }

  // Two identities with over-long names are both printed as "-": the printer accepts
  // the snapshot and no reader does.
  lemma TwinsUnreadable(a: string, b: string)
    requires |a| > 64 && |b| > 64
    ensures Format(Twins(a, b)).Some? && Parse(Printed(Format(Twins(a, b)).value), "n") == None
  {
    var s := Twins(a, b);
    TwinsWhole(a, b);
    TwinsHeader(a, b);
    HeaderShort(s);
    FormatWhole(s);
    SortedByName(s.identities);
    var ids := Kept(s);
    forall i | i in ids
      ensures Safe(i.name) == "-"
    {
      assert i in multiset(Sorted(s.identities));
    }
    assert ids[0] in ids && ids[1] in ids;
    assert !Readable(s);
    RoundTripExact(s);
  }
}
