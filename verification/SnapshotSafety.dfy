/**
  The main results on listener snapshots: what a reader makes of the printed text,
  and that the text keeps within the limits.
*/
module SnapshotSafety {
  import opened Snapshot
  import opened SnapshotRoundTrip
  import opened SnapshotText
  import opened Text
  import opened Wrappers

  // The text of a snapshot: header, the identities that are kept, and for a cut
  // snapshot how many were left out.
  function EndOf(whole: bool, omitted: nat): seq<Record> {
    if whole then [] else [Trailer(omitted)]
  }

  function TextOf(s: Listing, kept: seq<Identity>, whole: bool, omitted: nat): seq<Record>
    requires HeaderOk(s) && AllPrintable(kept)
  {
    Header(s, whole) + IdentityRecords(kept) + EndOf(whole, omitted)
  }

  // What that text says.
  function NormalOf(s: Listing, kept: seq<Identity>, whole: bool, omitted: Int64): Listing {
    s.(complete := whole, components := NormalComponents(s.components), mailboxes := NormalMailboxes(s.mailboxes),
       linkAge := if s.linkAge >= 0 then s.linkAge else -1, identities := NormalIdentities(kept),
       truncated := if whole then 0 else omitted)
  }

  // ----------------------------------------------------------------- the lines

  lemma {:induction false} JoinIsOneLine(r: Record)
    requires Words(r)
    ensures OneLine(Join(r))
  {
    if |r| > 0 {
      assert r[0] in r;
      if |r| > 1 {
        JoinIsOneLine(r[1..]);
      }
    }
  }

  lemma {:induction false} LinesAreOne(rs: seq<Record>)
    requires AllWords(rs)
    ensures forall l :: l in Lines(rs) ==> OneLine(l)
  {
    if rs != [] {
      assert Words(rs[0]);
      JoinIsOneLine(rs[0]);
      LinesAreOne(rs[1..]);
    }
  }

  lemma {:induction false} LinesAt(rs: seq<Record>, i: nat)
    requires i < |rs|
    ensures Lines(rs)[i] == Join(rs[i])
  {
    if i > 0 {
      LinesAt(rs[1..], i - 1);
    }
  }

  lemma LinedPrinted(rs: seq<Record>)
    requires AllWords(rs)
    ensures Lined(Printed(rs)) == Lines(rs)
  {
    LinesAreOne(rs);
    SplitOfUnlines(Lines(rs));
    assert (Lines(rs) + [""])[..|Lines(rs)|] == Lines(rs);
  }

  // What the reader does with records that keep the limits.
  lemma ParsePrinted(rs: seq<Record>, node: string)
    requires AllWords(rs) && rs != [] && rs[0] == ["ears", "1"] && ShortRecords(rs) && |Printed(rs)| <= READER_MAX_BYTES
    ensures Parse(Printed(rs), node) ==
            if |rs| > READER_MAX_LINES then None
            else match Reads(START, 1, rs[1..]) case None => None case Some(p) => Finished(p, node, |rs|)
  {
    LinedPrinted(rs);
    LinesAt(rs, 0);
    assert ["ears", "1"][1..] == ["1"] && "ears" + " " + "1" == "ears 1";
    forall l | l in Lines(rs)
      ensures |l| <= MAX_RECORD_BYTES
    {
      var i :| 0 <= i < |rs| && Lines(rs)[i] == l;
      LinesAt(rs, i);
      assert rs[i] in rs;
    }
    LinesRead(START, 1, rs[1..]);
    assert Lines(rs)[1..] == Lines(rs[1..]);
  }

  // ------------------------------------------------------------- header words

  lemma NodeNameIsWord(v: string)
    requires NodeName(v)
    ensures Word(v)
  {
    assert forall c :: c in v ==> NodeChar(c);
  }

  lemma TopWords(s: Listing, complete: bool)
    requires HeaderOk(s)
    ensures AllWords(HeaderTop(s, complete))
  {
    NodeNameIsWord(s.node);
    DecIsValue(s.generation);
    DecIsValue(s.writtenAt);
    DecIsValue(s.interval);
    TopKeys();
    TopValues();
  }

  lemma TopKeys()
    ensures Word("node") && Word("generation") && Word("written-at") && Word("interval") && Word("state") && Word("complete")
  {
    LetterWord("node");
    LetterWord("generation");
    LetterWord("written-at");
    LetterWord("interval");
    LetterWord("state");
    LetterWord("complete");
  }

  lemma TopValues()
    ensures Word("yes") && Word("no") && Word("running") && Word("stopping")
  {
    LetterWord("running");
    LetterWord("stopping");
  }

  lemma EndWords(s: Listing)
    ensures AllWords(HeaderEnd(s))
  {
    MailboxWords(s.mailboxes);
    if s.linkAge >= 0 {
      DecIsValue(s.linkAge);
    }
    assert Word("link") && Word("-");
  }

  lemma MailboxWords(ms: seq<string>)
    ensures Words(MailboxRecord(ms))
  {
    UniqueHas(ms);
    forall v | v in SafeSortedUnique(ms)
      ensures Word(v)
    {
      var m :| m in ms && Safe(m) == v;
      SafeIsValue(m);
      ValueIsWord(v);
    }
    assert Word("mailbox") && Word("-");
  }

  lemma AllWordsJoin(a: seq<Record>, b: seq<Record>)
    requires AllWords(a) && AllWords(b)
    ensures AllWords(a + b)
  {
  }

  lemma HeaderWords(s: Listing, complete: bool)
    requires HeaderOk(s)
    ensures AllWords(Header(s, complete))
  {
    var first: seq<Record> := [["ears", "1"]];
    assert Word("ears") && Word("1");
    TopWords(s, complete);
    ComponentsAreWords(s.components);
    EndWords(s);
    AllWordsJoin(first, HeaderTop(s, complete));
    AllWordsJoin(first + HeaderTop(s, complete), ComponentRecords(s.components));
    AllWordsJoin(first + HeaderTop(s, complete) + ComponentRecords(s.components), HeaderEnd(s));
  }

  lemma TrailerWords(omitted: nat)
    requires omitted <= MAX_INT64
    ensures Words(Trailer(omitted)) && |Join(Trailer(omitted))| <= 29
  {
    DecIsValue(omitted);
    LetterWord("truncated");
    assert Trailer(omitted)[1..] == [Dec(omitted)];
    assert Join(Trailer(omitted)) == "truncated" + " " + Dec(omitted);
  }

  // --------------------------------------------------------------- round trip

  lemma TextWords(s: Listing, kept: seq<Identity>, whole: bool, omitted: nat)
    requires HeaderOk(s) && AllPrintable(kept) && omitted <= MAX_INT64
    ensures AllWords(TextOf(s, kept, whole, omitted))
  {
    HeaderWords(s, whole);
    IdentitiesAreWords(kept);
    AllWordsJoin(Header(s, whole), IdentityRecords(kept));
    TrailerWords(omitted);
    AllWordsJoin(Header(s, whole) + IdentityRecords(kept), EndOf(whole, omitted));
  }

  // Reading a list of records with any way of reading one.
  type Step = (Parsing, nat, Record) -> Option<Parsing>

  function Fold(step: Step, p: Parsing, i: nat, rs: seq<Record>): Option<Parsing>
    decreases |rs|
  {
    if rs == [] then Some(p)
    else
      match step(p, i, rs[0])
      case None => None
      case Some(q) => Fold(step, q, i + 1, rs[1..])
  }

  lemma {:induction false} FoldIsReads(p: Parsing, i: nat, rs: seq<Record>)
    ensures Fold(ParseRecord, p, i, rs) == Reads(p, i, rs)
    decreases |rs|
  {
    if rs != [] {
      var q := ParseRecord(p, i, rs[0]);
      if q.Some? {
        FoldIsReads(q.value, i + 1, rs[1..]);
      }
    }
  }

  lemma {:induction false} FoldOn(step: Step, p: Parsing, i: nat, a: seq<Record>, b: seq<Record>)
    ensures Fold(step, p, i, a + b) == match Fold(step, p, i, a) case None => None case Some(q) => Fold(step, q, i + |a|, b)
    decreases |a|
  {
    if a == [] {
      assert a + b == b;
    } else {
      assert (a + b)[1..] == a[1..] + b && (a + b)[0] == a[0];
      var q := step(p, i, a[0]);
      if q.Some? {
        FoldOn(step, q.value, i + 1, a[1..], b);
      }
    }
  }

  // Whatever comes before, the records rs add the identities kept, if their names
  // are new.
  ghost predicate ReadsAs(step: Step, rs: seq<Record>, kept: seq<Identity>) {
    forall p, i :: Fold(step, p, i, rs) == if NewNames(kept, p.names) then Some(AllKnown(p, kept)) else None
  }

  lemma IdentitiesReadAs(kept: seq<Identity>)
    requires AllPrintable(kept)
    ensures ReadsAs(ParseRecord, IdentityRecords(kept), kept)
  {
    forall p, i
      ensures Fold(ParseRecord, p, i, IdentityRecords(kept)) == if NewNames(kept, p.names) then Some(AllKnown(p, kept)) else None
    {
      FoldIsReads(p, i, IdentityRecords(kept));
      IdentitiesRead(p, i, kept);
    }
  }

  // The reader's state after the last line.
  function Closed(p: Parsing, kept: seq<Identity>, whole: bool, omitted: Int64, last: nat): Parsing {
    if whole then AllKnown(p, kept) else Cut(AllKnown(p, kept), omitted, last)
  }

  function Cut(p: Parsing, omitted: Int64, last: nat): Parsing {
    p.(seen := p.seen + {"truncated"}, result := p.result.(truncated := omitted), truncatedAt := last)
  }

  // A trailer is read as the number left out.
  ghost predicate Cuts(step: Step, end: Record, omitted: Int64) {
    forall p: Parsing, i: nat :: "truncated" !in p.seen ==> step(p, i, end) == Some(Cut(p, omitted, i))
  }

  // The state after the tail, p being the state after the header.
  function Outcome(p: Parsing, kept: seq<Identity>, whole: bool, omitted: Int64, last: nat): Option<Parsing> {
    if NewNames(kept, {}) then Some(Closed(p, kept, whole, omitted, last)) else None
  }

  predicate Unnamed(p: Parsing) { p.names == {} && "truncated" !in p.seen }

  lemma TailFolds(step: Step, p: Parsing, i: nat, ids: seq<Record>, kept: seq<Identity>, whole: bool, omitted: nat)
    requires ReadsAs(step, ids, kept) && omitted <= MAX_INT64 && Cuts(step, Trailer(omitted), omitted) && Unnamed(p)
    ensures Fold(step, p, i, ids + EndOf(whole, omitted)) == Outcome(p, kept, whole, omitted, i + |ids|)
  {
    FoldOn(step, p, i, ids, EndOf(whole, omitted));
    if !whole {
      var none: seq<Record> := [];
      assert EndOf(whole, omitted)[1..] == none;
    }
  }

  lemma AllFolds(step: Step, rest: seq<Record>, n: nat, q: Parsing, ids: seq<Record>, kept: seq<Identity>, whole: bool, omitted: nat)
    requires Fold(step, START, 1, rest) == Some(q) && Unnamed(q) && n == 1 + |rest|
    requires ReadsAs(step, ids, kept) && omitted <= MAX_INT64 && Cuts(step, Trailer(omitted), omitted)
    ensures Fold(step, START, 1, rest + (ids + EndOf(whole, omitted))) == Outcome(q, kept, whole, omitted, n + |ids|)
  {
    FoldOn(step, START, 1, rest, ids + EndOf(whole, omitted));
    TailFolds(step, q, n, ids, kept, whole, omitted);
  }

  lemma TrailerCuts(omitted: nat)
    requires omitted <= MAX_INT64
    ensures Cuts(ParseRecord, Trailer(omitted), omitted)
  {
    forall p: Parsing, i: nat | "truncated" !in p.seen
      ensures ParseRecord(p, i, Trailer(omitted)) == Some(Cut(p, omitted, i))
    {
      TrailerReads(p, i, omitted);
    }
  }

  // What the reader makes of a text whose header and identities are known to read.
  lemma RecordsParse(rest: seq<Record>, n: nat, q: Parsing, ids: seq<Record>, kept: seq<Identity>, whole: bool, omitted: nat, node: string)
    requires Fold(ParseRecord, START, 1, rest) == Some(q) && Unnamed(q) && n == 1 + |rest|
    requires ReadsAs(ParseRecord, ids, kept) && omitted <= MAX_INT64
    requires var rs := [["ears", "1"]] + rest + ids + EndOf(whole, omitted);
      AllWords(rs) && ShortRecords(rs) && |Printed(rs)| <= READER_MAX_BYTES
    ensures var rs := [["ears", "1"]] + rest + ids + EndOf(whole, omitted);
      Parse(Printed(rs), node) ==
      if |rs| > READER_MAX_LINES then None
      else match Outcome(q, kept, whole, omitted, n + |ids|) case None => None case Some(p) => Finished(p, node, |rs|)
  {
    var rs := [["ears", "1"]] + rest + ids + EndOf(whole, omitted);
    assert rs[1..] == rest + (ids + EndOf(whole, omitted));
    TrailerCuts(omitted);
    AllFolds(ParseRecord, rest, n, q, ids, kept, whole, omitted);
    FoldIsReads(START, 1, rs[1..]);
    ParsePrinted(rs, node);
  }

  // A header that does not read spoils the text.
  lemma RecordsRefused(rest: seq<Record>, tail: seq<Record>, node: string)
    requires Fold(ParseRecord, START, 1, rest).None?
    requires var rs := [["ears", "1"]] + rest + tail; AllWords(rs) && ShortRecords(rs) && |Printed(rs)| <= READER_MAX_BYTES
    ensures Parse(Printed([["ears", "1"]] + rest + tail), node).None?
  {
    var rs := [["ears", "1"]] + rest + tail;
    assert rs[1..] == rest + tail;
    FoldOn(ParseRecord, START, 1, rest, tail);
    FoldIsReads(START, 1, rs[1..]);
    ParsePrinted(rs, node);
  }

  lemma HeaderUnnamed(s: Listing, whole: bool)
    ensures Unnamed(AfterHeader(s, whole))
  {
  }

  lemma HeaderFolds(s: Listing, whole: bool)
    requires HeaderOk(s)
    ensures Fold(ParseRecord, START, 1, HeaderRest(s, whole)) == if MailboxesOk(s.mailboxes) then Some(AfterHeader(s, whole)) else None
    ensures Unnamed(AfterHeader(s, whole))
  {
    HeaderReads(s, whole);
    FoldIsReads(START, 1, HeaderRest(s, whole));
    HeaderUnnamed(s, whole);
  }

  lemma FinishedNormal(s: Listing, kept: seq<Identity>, whole: bool, omitted: Int64, last: nat, lines: nat)
    requires HeaderOk(s) && lines == if whole then last else last + 1
    ensures Finished(Closed(AfterHeader(s, whole), kept, whole, omitted, last), s.node, lines) == Some(NormalOf(s, kept, whole, omitted))
  {
    var p := Closed(AfterHeader(s, whole), kept, whole, omitted, last);
    assert AfterHeader(s, whole).result.identities + NormalIdentities(kept) == NormalIdentities(kept);
    assert |NormalComponents(s.components)| > 0;
    assert p.result == NormalOf(s, kept, whole, omitted);
    HeaderUnnamed(s, whole);
  }

  lemma HeaderSplits(s: Listing, whole: bool, top: seq<Record>)
    requires HeaderOk(s) && top == HeaderTop(s, whole)
    ensures Header(s, whole) == [["ears", "1"]] + HeaderRest(s, whole)
  {
    var h: seq<Record> := [["ears", "1"]];
    assert h + top + ComponentRecords(s.components) + HeaderEnd(s) == h + (top + ComponentRecords(s.components) + HeaderEnd(s));
  }

  lemma TextAccepted(s: Listing, rest: seq<Record>, q: Parsing, ids: seq<Record>, kept: seq<Identity>, whole: bool, omitted: nat)
    requires HeaderOk(s) && q == AfterHeader(s, whole) && Unnamed(q) && |ids| == |kept|
    requires Fold(ParseRecord, START, 1, rest) == Some(q) && ReadsAs(ParseRecord, ids, kept) && omitted <= MAX_INT64
    requires var rs := [["ears", "1"]] + rest + ids + EndOf(whole, omitted);
      AllWords(rs) && ShortRecords(rs) && |Printed(rs)| <= READER_MAX_BYTES
    ensures var rs := [["ears", "1"]] + rest + ids + EndOf(whole, omitted);
      Parse(Printed(rs), s.node) ==
      if NewNames(kept, {}) && |rs| <= READER_MAX_LINES then Some(NormalOf(s, kept, whole, omitted)) else None
  {
    var n := 1 + |rest|;
    RecordsParse(rest, n, q, ids, kept, whole, omitted, s.node);
    FinishedNormal(s, kept, whole, omitted, n + |ids|, if whole then n + |ids| else n + |ids| + 1);
  }

  lemma TextRefused(s: Listing, rest: seq<Record>, ids: seq<Record>, end: seq<Record>)
    requires Fold(ParseRecord, START, 1, rest).None?
    requires var rs := [["ears", "1"]] + rest + ids + end; AllWords(rs) && ShortRecords(rs) && |Printed(rs)| <= READER_MAX_BYTES
    ensures Parse(Printed([["ears", "1"]] + rest + ids + end), s.node).None?
  {
    assert [["ears", "1"]] + rest + ids + end == [["ears", "1"]] + rest + (ids + end);
    RecordsRefused(rest, ids + end, s.node);
  }

  lemma TextFrom(s: Listing, kept: seq<Identity>, whole: bool, omitted: nat, rest: seq<Record>)
    requires HeaderOk(s) && AllPrintable(kept) && rest == HeaderRest(s, whole)
    ensures TextOf(s, kept, whole, omitted) == [["ears", "1"]] + rest + IdentityRecords(kept) + EndOf(whole, omitted)
  {
    HeaderSplits(s, whole, HeaderTop(s, whole));
  }

  // A text within the limits is read exactly when its mailboxes are printable node
  // names (or none is printable), its identities have distinct safe names and its
  // lines are not too many; and then it is read as what it says.
  lemma TextParses(s: Listing, kept: seq<Identity>, whole: bool, omitted: nat)
    requires HeaderOk(s) && AllPrintable(kept) && omitted <= MAX_INT64
    requires var rs := TextOf(s, kept, whole, omitted); ShortRecords(rs) && |Printed(rs)| <= READER_MAX_BYTES
    ensures var rs := TextOf(s, kept, whole, omitted);
      Parse(Printed(rs), s.node) ==
      if MailboxesOk(s.mailboxes) && NewNames(kept, {}) && |rs| <= READER_MAX_LINES
      then Some(NormalOf(s, kept, whole, omitted)) else None
  {
    TextWords(s, kept, whole, omitted);
    TextFrom(s, kept, whole, omitted, HeaderRest(s, whole));
    HeaderFolds(s, whole);
    IdentitiesReadAs(kept);
    if MailboxesOk(s.mailboxes) {
      TextAccepted(s, HeaderRest(s, whole), AfterHeader(s, whole), IdentityRecords(kept), kept, whole, omitted);
    } else {
      TextRefused(s, HeaderRest(s, whole), IdentityRecords(kept), EndOf(whole, omitted));
    }
  }

  // ------------------------------------------------------------- the printer

  predicate Ready(s: Listing) {
    HeaderOk(s) && AllPrintable(Sorted(s.identities)) && |Sorted(s.identities)| <= MAX_INT64
  }

  function Kept(s: Listing): seq<Identity>
    requires Ready(s)
  {
    Sorted(s.identities)[..Shown(s, Sorted(s.identities))]
  }

  function Omitted(s: Listing): nat
    requires Ready(s)
  {
    |Sorted(s.identities)| - Shown(s, Sorted(s.identities))
  }

  predicate Whole(s: Listing)
    requires Ready(s)
  {
    FitsWhole(s, Sorted(s.identities))
  }

  lemma KeptPrintable(s: Listing)
    requires Ready(s)
    ensures AllPrintable(Kept(s))
  {
    assert forall i :: i in Kept(s) ==> i in Sorted(s.identities);
  }

  lemma Shape(s: Listing)
    requires Ready(s) && Format(s).Some?
    ensures AllPrintable(Kept(s)) && Format(s).value == TextOf(s, Kept(s), Whole(s), Omitted(s))
    ensures |Printed(Format(s).value)| <= WRITER_MAX_BYTES
  {
    KeptPrintable(s);
    if Whole(s) {
      FormattedWhole(s);
    } else {
      FormattedCut(s);
    }
  }

  lemma FormattedWhole(s: Listing)
    requires Ready(s) && Format(s).Some? && Whole(s) && AllPrintable(Kept(s))
    ensures Format(s).value == TextOf(s, Kept(s), true, 0) && Omitted(s) == 0 && |Printed(Format(s).value)| <= WRITER_MAX_BYTES
  {
    ShapeWhole(s, Sorted(s.identities), Kept(s));
  }

  lemma FormattedCut(s: Listing)
    requires Ready(s) && Format(s).Some? && !Whole(s) && AllPrintable(Kept(s))
    ensures Format(s).value == TextOf(s, Kept(s), false, Omitted(s)) && |Printed(Format(s).value)| <= WRITER_MAX_BYTES
  {
  }

  lemma ShapeWhole(s: Listing, ids: seq<Identity>, kept: seq<Identity>)
    requires HeaderOk(s) && AllPrintable(ids) && kept == ids[..|ids|]
    ensures AllPrintable(kept) && TextOf(s, kept, true, 0) == Header(s, true) + IdentityRecords(ids)
  {
    assert kept == ids;
    NothingMore(Header(s, true) + IdentityRecords(ids));
  }

  lemma NothingMore(rs: seq<Record>)
    ensures rs + [] == rs
  {
  }

  lemma {:induction false} PrefixRecords(ids: seq<Identity>, n: nat)
    requires AllPrintable(ids) && n <= |ids| && AllPrintable(ids[..n])
    ensures IdentityRecords(ids[..n]) == IdentityRecords(ids)[..n]
  {
    if n > 0 {
      assert ids[..n][1..] == ids[1..][..n - 1];
      assert AllPrintable(ids[1..]) && AllPrintable(ids[1..][..n - 1]);
      PrefixRecords(ids[1..], n - 1);
    }
  }

  lemma ShortJoin(a: seq<Record>, b: seq<Record>)
    requires ShortRecords(a) && ShortRecords(b)
    ensures ShortRecords(a + b)
  {
  }

  lemma ShortPrefix(a: seq<Record>, n: nat)
    requires ShortRecords(a) && n <= |a|
    ensures ShortRecords(a[..n])
  {
    assert forall r :: r in a[..n] ==> r in a;
  }

  lemma TextShort(s: Listing)
    requires Ready(s) && Format(s).Some?
    ensures ShortRecords(Format(s).value)
  {
    Shape(s);
    var ids := Sorted(s.identities);
    PrefixRecords(ids, Shown(s, ids));
    ShortPrefix(IdentityRecords(ids), Shown(s, ids));
    TrailerWords(Omitted(s));
    ShortJoin(Header(s, Whole(s)), IdentityRecords(Kept(s)));
    ShortJoin(Header(s, Whole(s)) + IdentityRecords(Kept(s)), EndOf(Whole(s), Omitted(s)));
  }

  // What the reader further asks of a printed text: all of it a caller can count.
  predicate Readable(s: Listing)
    requires Ready(s)
  {
    ReadableText(s.mailboxes, |s.components|, Kept(s), Whole(s))
  }

  predicate DistinctSafe(ids: seq<Identity>) {
    forall a, b :: 0 <= a < b < |ids| ==> Safe(ids[a].name) != Safe(ids[b].name)
  }

  predicate ReadableText(mailboxes: seq<string>, components: nat, kept: seq<Identity>, whole: bool) {
    && MailboxesOk(mailboxes)
    && DistinctSafe(kept)
    && 9 + components + |kept| + (if whole then 0 else 1) <= READER_MAX_LINES
  }

  lemma TextLines(s: Listing, kept: seq<Identity>, whole: bool, omitted: nat)
    requires HeaderOk(s) && AllPrintable(kept)
    ensures |TextOf(s, kept, whole, omitted)| == 9 + |s.components| + |kept| + if whole then 0 else 1
  {
    ComponentCount(s.components);
  }

  // The printer's output is read back exactly when the snapshot is readable, and
  // then as itself normalised: sorted, unsafe values as "-", and if cut, the sorted
  // prefix with "complete no" and the exact number left out.
  lemma RoundTripExact(s: Listing)
    requires Format(s).Some? && |Sorted(s.identities)| <= MAX_INT64
    ensures Parse(Printed(Format(s).value), s.node) ==
            if Readable(s) then Some(NormalOf(s, Kept(s), Whole(s), Omitted(s))) else None
  {
    Shape(s);
    TextShort(s);
    ReadableExact(s, Kept(s), Whole(s), Omitted(s));
  }

  lemma ReadableExact(s: Listing, kept: seq<Identity>, whole: bool, omitted: nat)
    requires HeaderOk(s) && AllPrintable(kept) && omitted <= MAX_INT64
    requires var rs := TextOf(s, kept, whole, omitted); ShortRecords(rs) && |Printed(rs)| <= READER_MAX_BYTES
    ensures Parse(Printed(TextOf(s, kept, whole, omitted)), s.node) ==
      if ReadableText(s.mailboxes, |s.components|, kept, whole) then Some(NormalOf(s, kept, whole, omitted)) else None
  {
    TextParses(s, kept, whole, omitted);
    NewNamesExact(kept, {});
    TextLines(s, kept, whole, omitted);
  }
}
