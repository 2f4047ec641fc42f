/**
  Parent notices (link/parent.go): the conduit tells the session that launched an
  identity about letters nobody is there to read. One identity; the fields are the
  notifier's maps at that identity.
*/
module ParentNotice {
  import opened Text
  import opened Wrappers

  type Id = string

  datatype Letter = Letter(id: Id, installedAt: int)

  function Ids(letters: seq<Letter>): set<Id> { set l | l in letters :: l.id }

  function IdList(letters: seq<Letter>): seq<Id> { seq(|letters|, i requires 0 <= i < |letters| => letters[i].id) }

  // One scan: the unread letters, whether the identity has a parent and lives, and
  // the first line of a record written now.
  datatype Scan = Scan(now: int, letters: seq<Letter>, parent: bool, live: bool, header: string)

  // What the notifier keeps (waiting, noticed) and the text of its record on disk.
  // History: `ever` arrived, `announced` covered by some recorded notice, `sent`
  // notices queued, `crashes` queued but not recorded, `scans` since the last start.
  datatype State = State(waiting: Option<int>, noticed: Option<set<Id>>, record: string,
                         ever: set<Id>, unread: set<Id>, announced: set<Id>, sent: nat, crashes: nat, scans: seq<(int, bool)>)

  function Covered(s: State): set<Id> {
    match s.noticed case Some(c) => c case None => IdsRead(s.record)
  }

  function Recorded(scan: Scan): string { RecordText(scan.header, IdList(scan.letters)) }

  predicate Uncovered(s: State, letters: seq<Letter>) {
    exists l :: l in letters && l.id !in Covered(s)
  }

  // The condition a notice waits for.
  predicate Waits(s: State, scan: Scan) {
    scan.letters != [] && Uncovered(s, scan.letters) && scan.parent && !scan.live
  }

  datatype Outcome = Quiet | QueueFailed | Sent | Crashed

  // What a scan comes to: when the wait has lasted for the grace period a notice is
  // queued, which may fail, or be followed by a crash before it is recorded.
  predicate Comes(s: State, scan: Scan, grace: int, o: Outcome) {
    if Waits(s, scan) && s.waiting.Some? && scan.now - s.waiting.value >= grace then o != Quiet
    else if Waits(s, scan) && s.waiting.None? && grace <= 0 then o != Quiet
    else o == Quiet
  }

  function Scanned(s: State, scan: Scan, o: Outcome): State {
    var loaded := if scan.letters == [] then s.noticed else Some(Covered(s));
    var s1 := s.(noticed := loaded, scans := s.scans + [(scan.now, Waits(s, scan))]);
    if !Waits(s, scan) then s1.(waiting := None)
    else
      match o
      case Sent => s1.(waiting := None, noticed := Some(Ids(scan.letters)), record := Recorded(scan),
                       announced := s.announced + Ids(scan.letters), sent := s.sent + 1)
      case Crashed => Started(s1.(sent := s.sent + 1, crashes := s.crashes + 1))
      case _ => s1.(waiting := if s.waiting.Some? then s.waiting else Some(scan.now))
  }

  // A conduit that starts knows only the record.
  function Started(s: State): State {
    s.(waiting := None, noticed := None, scans := [])
  }

  datatype Step = Arrive(id: Id) | Read(id: Id) | Look(scan: Scan, o: Outcome) | Restart

  predicate Possible(s: State, e: Step, grace: int) {
    match e
    case Arrive(id) => id !in s.ever
    case Read(id) => true
    case Look(scan, o) =>
      Ids(scan.letters) == s.unread && Comes(s, scan, grace, o) && (scan.letters != [] ==> GoodRecord(scan.header, IdList(scan.letters)))
    case Restart => true
  }

  function After(s: State, e: Step): State {
    match e
    case Arrive(id) => s.(ever := s.ever + {id}, unread := s.unread + {id})
    case Read(id) => s.(unread := s.unread - {id})
    case Look(scan, o) => Scanned(s, scan, o)
    case Restart => Started(s)
  }

  predicate Initial(s: State) {
    s.waiting.None? && s.noticed.None? && s.record == "" && s.ever == {} && s.unread == {} && s.announced == {} &&
    s.sent == 0 && s.crashes == 0 && s.scans == []
  }

  // The i-th scan was at t, and from it on every scan found the identity waiting.
  predicate StreakFrom(scans: seq<(int, bool)>, i: nat, t: int) {
    i < |scans| && scans[i].0 == t && forall j :: i <= j < |scans| ==> scans[j].1
  }

  ghost predicate Streak(scans: seq<(int, bool)>, t: int) {
    exists i :: StreakFrom(scans, i, t)
  }

  ghost predicate Inv(s: State) {
    && s.unread <= s.ever && s.announced <= s.ever
    && (s.noticed.Some? ==> s.noticed.value == IdsRead(s.record))
    && s.announced * s.unread <= IdsRead(s.record)
    && s.sent <= |s.announced| + s.crashes
  }

  ghost predicate WaitsLong(s: State) {
    s.waiting.Some? ==> Streak(s.scans, s.waiting.value)
  }

  // A record written by this step can be read back whole.
  predicate Fits(e: Step) {
    e.Look? && e.o == Sent ==> |Recorded(e.scan)| <= READ_LIMIT + 1
  }

  lemma StreakGrows(scans: seq<(int, bool)>, t: int, now: int)
    requires Streak(scans, t)
    ensures Streak(scans + [(now, true)], t)
  {
    var i :| StreakFrom(scans, i, t);
    assert StreakFrom(scans + [(now, true)], i, t);
  }

  lemma StreakStarts(scans: seq<(int, bool)>, now: int)
    ensures Streak(scans + [(now, true)], now)
  {
    assert StreakFrom(scans + [(now, true)], |scans|, now);
  }

  lemma SmallerSet(a: set<Id>, b: set<Id>)
    requires a <= b
    ensures |a| <= |b|
  {
    assert b == a + (b - a);
  }

  // Each notice announces a letter never announced before.
  lemma NoticeIsNews(s: State, scan: Scan)
    requires Inv(s) && Ids(scan.letters) == s.unread && Waits(s, scan)
    ensures |s.announced + Ids(scan.letters)| > |s.announced|
  {
    var l :| l in scan.letters && l.id !in Covered(s);
    assert l.id in Ids(scan.letters);
    SmallerSet(s.announced + {l.id}, s.announced + Ids(scan.letters));
  }

  lemma IdsOfList(letters: seq<Letter>)
    ensures (set id | id in IdList(letters)) == Ids(letters)
  {
    forall l | l in letters
      ensures l.id in IdList(letters)
    {
      var i :| 0 <= i < |letters| && letters[i] == l;
      assert IdList(letters)[i] == l.id;
    }
  }

  // What a scan leaves, by its outcome: nothing is waited for where nothing waits; a
  // notice covers and records just the letters of the scan; a failure and a grace
  // period still running leave the wait as it began; and covered is what was covered.
  lemma ScanLeaves(s: State, scan: Scan, o: Outcome, grace: int)
    requires Comes(s, scan, grace, o) && scan.letters != []
    ensures var t := Scanned(s, scan, o);
      match o
      case Sent =>
        t.waiting == None && t.noticed == Some(Ids(scan.letters)) && t.record == RecordText(scan.header, IdList(scan.letters)) && t.sent == s.sent + 1
      case Crashed => t.waiting == None && t.noticed == None && t.record == s.record && t.sent == s.sent + 1 && t.crashes == s.crashes + 1
      case _ =>
        && t.noticed == Some(Covered(s)) && t.record == s.record && t.sent == s.sent
        && t.waiting == if !Waits(s, scan) then None else if s.waiting.Some? then s.waiting else Some(scan.now)
  {
  }

  lemma LookKept(s: State, scan: Scan, o: Outcome, grace: int)
    requires Inv(s) && Possible(s, Look(scan, o), grace) && Fits(Look(scan, o))
    ensures Inv(Scanned(s, scan, o))
  {
    if Waits(s, scan) {
      NoticeIsNews(s, scan);
      if o == Sent {
        RecordReadBackExact(scan.header, IdList(scan.letters));
        IdsOfList(scan.letters);
      }
    }
  }

  lemma LookWaits(s: State, scan: Scan, o: Outcome)
    requires WaitsLong(s)
    ensures WaitsLong(Scanned(s, scan, o))
  {
    if Waits(s, scan) {
      StreakStarts(s.scans, scan.now);
      if s.waiting.Some? {
        StreakGrows(s.scans, s.waiting.value, scan.now);
      }
    }
  }

  lemma StepKept(s: State, e: Step, grace: int)
    requires Inv(s) && Possible(s, e, grace) && Fits(e)
    ensures Inv(After(s, e))
  {
    match e
    case Look(scan, o) => LookKept(s, scan, o, grace);
    case _ =>
  }

  ghost predicate Leads(s: State, es: seq<Step>, t: State, grace: int)
    decreases |es|
  {
    if es == [] then s == t
    else Possible(s, es[0], grace) && Leads(After(s, es[0]), es[1..], t, grace)
  }

  lemma {:induction false} RunKept(s: State, es: seq<Step>, t: State, grace: int)
    requires Inv(s) && Leads(s, es, t, grace) && forall e :: e in es ==> Fits(e)
    ensures Inv(t)
    decreases |es|
  {
    if es != [] {
      assert es[0] in es;
      StepKept(s, es[0], grace);
      RunKept(After(s, es[0]), es[1..], t, grace);
    }
  }

  lemma {:induction false} RunWaits(s: State, es: seq<Step>, t: State, grace: int)
    requires WaitsLong(s) && Leads(s, es, t, grace)
    ensures WaitsLong(t)
    decreases |es|
  {
    if es != [] {
      if es[0].Look? {
        LookWaits(s, es[0].scan, es[0].o);
      }
      RunWaits(After(s, es[0]), es[1..], t, grace);
    }
  }

  // In every run whose records are within the limit of what is read back: a letter
  // announced and still unread is covered, also after a restart; and there are at
  // most as many notices as letters, but for crashes between queueing a notice and
  // recording it.
  lemma AtMostOneNoticePerLetter(s: State, es: seq<Step>, t: State, grace: int)
    requires Initial(s) && Leads(s, es, t, grace) && forall e :: e in es ==> Fits(e)
    ensures t.announced * t.unread <= Covered(t)
    ensures t.sent <= |t.ever| + t.crashes
  {
    RunKept(s, es, t, grace);
    SmallerSet(t.announced, t.ever);
  }

  // A restart right after a notice keeps what is covered if and only if the record
  // is within the limit.
  lemma RestartKeepsExact(s: State, scan: Scan, grace: int)
    requires Possible(s, Look(scan, Sent), grace) && Waits(s, scan)
    ensures var t := After(s, Look(scan, Sent)); Covered(After(t, Restart)) == Covered(t) <==> Fits(Look(scan, Sent))
  {
    RecordReadBackExact(scan.header, IdList(scan.letters));
    IdsOfList(scan.letters);
  }

  // A notice is queued only after every scan for the grace period found the
  // identity waiting.
  lemma GraceObserved(s: State, es: seq<Step>, t: State, scan: Scan, o: Outcome, grace: int)
    requires Initial(s) && Leads(s, es, t, grace) && Possible(t, Look(scan, o), grace) && o != Quiet && grace > 0
    ensures exists since :: Streak(t.scans + [(scan.now, Waits(t, scan))], since) && scan.now - since >= grace
  {
    RunWaits(s, es, t, grace);
    StreakGrows(t.scans, t.waiting.value, scan.now);
    assert scan.now - t.waiting.value >= grace;
  }

  // ------------------------------------------------- a record that is too large

  const NEW := State(None, None, "", {}, {}, {}, 0, 0, [])

  lemma {:induction false} LeadsOn(s: State, es: seq<Step>, t: State, fs: seq<Step>, u: State, grace: int)
    requires Leads(s, es, t, grace) && Leads(t, fs, u, grace)
    ensures Leads(s, es + fs, u, grace)
    decreases |es|
  {
    if es == [] {
      assert es + fs == fs;
    } else {
      LeadsOn(After(s, es[0]), es[1..], t, fs, u, grace);
      assert (es + fs)[1..] == es[1..] + fs;
    }
  }

  lemma LeadsOne(s: State, e: Step, grace: int)
    requires Possible(s, e, grace)
    ensures Leads(s, [e], After(s, e), grace)
  {
    var none: seq<Step> := [];
    assert [e][1..] == none && Leads(After(s, e), none, After(s, e), grace);
  }

  lemma {:induction false} AllArrive(ids: seq<Id>, grace: int) returns (es: seq<Step>, t: State)
    requires forall i, j :: 0 <= i < j < |ids| ==> ids[i] != ids[j]
    ensures Leads(NEW, es, t, grace) && t == NEW.(ever := (set id | id in ids), unread := (set id | id in ids))
    decreases |ids|
  {
    if ids == [] {
      es, t := [], NEW;
    } else {
      var n := |ids| - 1;
      assert ids == ids[..n] + [ids[n]];
      var fs, u := AllArrive(ids[..n], grace);
      LeadsOne(u, Arrive(ids[n]), grace);
      LeadsOn(NEW, fs, u, [Arrive(ids[n])], After(u, Arrive(ids[n])), grace);
      es, t := fs + [Arrive(ids[n])], After(u, Arrive(ids[n]));
    }
  }

  // The scans that find the identity waiting and, a grace period later, tell its
  // parent.
  lemma Told(s: State, scan: Scan, later: Scan, grace: int) returns (t: State)
    requires s.waiting.None? && grace > 0 && later == scan.(now := scan.now + grace)
    requires Waits(s, scan) && Ids(scan.letters) == s.unread && GoodRecord(scan.header, IdList(scan.letters))
    ensures Leads(s, [Look(scan, Quiet), Look(later, Sent)], t, grace)
    ensures t.sent == s.sent + 1 && t.crashes == s.crashes && t.ever == s.ever && t.unread == s.unread
    ensures t.noticed == Some(Ids(scan.letters)) && t.waiting.None? && t.record == Recorded(scan)
  {
    var u := After(s, Look(scan, Quiet));
    assert Covered(u) == Covered(s);
    t := After(u, Look(later, Sent));
    LeadsOne(s, Look(scan, Quiet), grace);
    LeadsOne(u, Look(later, Sent), grace);
    LeadsOn(s, [Look(scan, Quiet)], u, [Look(later, Sent)], t, grace);
    assert [Look(scan, Quiet)] + [Look(later, Sent)] == [Look(scan, Quiet), Look(later, Sent)];
  }

  lemma FirstNotice(scan: Scan, grace: int) returns (es: seq<Step>, t: State)
    requires grace > 0 && GoodRecord(scan.header, IdList(scan.letters)) && scan.parent && !scan.live
    ensures Leads(NEW, es, t, grace) && t.sent == 1 && t.crashes == 0 && t.waiting.None? && t.record == Recorded(scan)
    ensures t.unread == Ids(scan.letters) && t.noticed == Some(Ids(scan.letters))
  {
    var later := scan.(now := scan.now + grace);
    var es1, a := AllArrive(IdList(scan.letters), grace);
    IdsOfList(scan.letters);
    assert scan.letters[0].id in Ids(scan.letters) && IdsRead("") == {};
    t := Told(a, scan, later, grace);
    es := es1 + [Look(scan, Quiet), Look(later, Sent)];
    LeadsOn(NEW, es1, a, [Look(scan, Quiet), Look(later, Sent)], t, grace);
  }

  // Letters whose record is too large are announced again by a restarted conduit,
  // although none of them is new.
  lemma LargeRecordRepeats(letters: seq<Letter>, header: string, grace: int) returns (es: seq<Step>, t: State, fs: seq<Step>, u: State)
    requires grace > 0 && GoodRecord(header, IdList(letters)) && |RecordText(header, IdList(letters))| > READ_LIMIT + 1
    ensures Leads(NEW, es, t, grace) && t.sent == 1 && t.unread == Ids(letters) && t.noticed == Some(Ids(letters))
    ensures Leads(t, fs, u, grace) && |fs| == 3 && fs[0] == Restart && (forall e :: e in fs ==> !e.Arrive?)
    ensures u.sent == 2 && u.crashes == 0 && u.unread == t.unread
  {
    var scan := Scan(1, letters, true, false, header);
    es, t := FirstNotice(scan, grace);
    RecordReadBackExact(header, IdList(letters));
    Unread(letters, IdsRead(Recorded(scan)));
    u := NoticeAgain(t, scan, grace);
    fs := [Restart, Look(scan, Quiet), Look(scan.(now := 1 + grace), Sent)];
  }

  lemma NoticeAgain(t: State, scan: Scan, grace: int) returns (u: State)
    requires grace > 0 && GoodRecord(scan.header, IdList(scan.letters)) && scan.parent && !scan.live
    requires Ids(scan.letters) == t.unread && exists l :: l in scan.letters && l.id !in IdsRead(t.record)
    ensures Leads(t, [Restart, Look(scan, Quiet), Look(scan.(now := scan.now + grace), Sent)], u, grace)
    ensures u.sent == t.sent + 1 && u.crashes == t.crashes && u.unread == t.unread
  {
    var looks := [Look(scan, Quiet), Look(scan.(now := scan.now + grace), Sent)];
    u := Told(After(t, Restart), scan, scan.(now := scan.now + grace), grace);
    LeadsOne(t, Restart, grace);
    LeadsOn(t, [Restart], After(t, Restart), looks, u, grace);
    assert [Restart] + looks == [Restart, looks[0], looks[1]];
  }

  lemma Unread(letters: seq<Letter>, read: set<Id>)
    requires exists id :: id in IdList(letters) && id !in read
    ensures exists l :: l in letters && l.id !in read
  {
    var id :| id in IdList(letters) && id !in read;
    var i :| 0 <= i < |letters| && IdList(letters)[i] == id;
    assert letters[i] in letters;
  }

  // Twenty thousand letters with Ids of at least 61 characters are such letters.
  function ManyIds(n: nat): seq<Id> { seq(n, i requires 0 <= i < n => Dec(i) + PADDING) }

  const PADDING := seq(60, _ => '.')

  lemma {:induction false} LongLines(lines: seq<string>)
    requires forall l :: l in lines ==> |l| >= 61
    ensures |Unlines(lines)| >= |lines| * 62
  {
    if lines != [] {
      assert lines[0] in lines;
      LongLines(lines[1..]);
    }
  }

  lemma ManyIdsTooLarge(header: string)
    requires OneLine(header) && "notice 1 " <= header
    ensures GoodRecord(header, ManyIds(20000)) && |RecordText(header, ManyIds(20000))| > READ_LIMIT + 1
  {
    var ids := ManyIds(20000);
    assert |PADDING| == 60;
    forall i | 0 <= i < |ids|
      ensures OneLine(ids[i]) && |ids[i]| >= 61
    {
      assert ids[i] == Dec(i) + PADDING;
      assert forall c :: c in ids[i] ==> IsDigit(c) || c == '.';
    }
    forall i, j | 0 <= i < j < |ids|
      ensures ids[i] != ids[j]
    {
      if ids[i] == ids[j] {
        assert ids[i][..|ids[i]| - 60] == Dec(i) && ids[j][..|ids[j]| - 60] == Dec(j);
        ValueOfDec(i);
        ValueOfDec(j);
      }
    }
    LongLines(ids);
    assert ([header] + ids)[1..] == ids;
  }

  // ---------------------------------------------------------------- notice Ids

  function Insert(id: Id, ids: seq<Id>): seq<Id> {
    if ids == [] then [id] else if Below(ids[0], id) then [ids[0]] + Insert(id, ids[1..]) else [id] + ids
  }

  function Sorted(letters: seq<Letter>): seq<Id> {
    if letters == [] then [] else Insert(letters[0].id, Sorted(letters[1..]))
  }

  function Newest(letters: seq<Letter>): int
    requires letters != []
  {
    if |letters| == 1 then letters[0].installedAt
    else
      var rest := Newest(letters[..|letters| - 1]);
      if rest < letters[|letters| - 1].installedAt then letters[|letters| - 1].installedAt else rest
  }

  // parentNoticeID: the time part and the sorted Ids that go into the hash.
  function NoticeId(letters: seq<Letter>, now: int): (int, seq<Id>)
    requires letters != []
  {
    (if Newest(letters) <= 0 then now else Newest(letters), Sorted(letters))
  }

  lemma {:induction false} InsertSwaps(a: Id, b: Id, ids: seq<Id>)
    ensures Insert(a, Insert(b, ids)) == Insert(b, Insert(a, ids))
  {
    BelowTotal(a, b);
    if ids != [] {
      var h := ids[0];
      BelowTotal(h, a);
      BelowTotal(h, b);
      InsertSwaps(a, b, ids[1..]);
      if Below(h, a) && Below(h, b) {
      } else if Below(h, a) && !Below(h, b) {
        BelowMixed(b, h, a);
      } else if Below(h, b) && !Below(h, a) {
        BelowMixed(a, h, b);
      }
    }
  }

  // b not above h, h below a: b below a.
  lemma BelowMixed(b: Id, h: Id, a: Id)
    requires !Below(h, b) && Below(h, a)
    ensures Below(b, a) && !Below(a, b)
  {
    BelowTotal(h, b);
    BelowTotal(a, b);
    if Below(b, h) {
      BelowTransitive(b, h, a);
    }
  }

  lemma {:induction false} SortedFront(letters: seq<Letter>, i: nat)
    requires i < |letters|
    ensures Sorted(letters) == Insert(letters[i].id, Sorted(letters[..i] + letters[i + 1..]))
    decreases |letters|
  {
    var others := letters[..i] + letters[i + 1..];
    if i == 0 {
      assert others == letters[1..];
    } else {
      SortedFront(letters[1..], i - 1);
      var rest := letters[1..][..i - 1] + letters[1..][i..];
      assert others[0] == letters[0] && others[1..] == rest;
      InsertSwaps(letters[0].id, letters[i].id, Sorted(rest));
    }
  }

  lemma Without(letters: seq<Letter>, i: nat)
    requires i < |letters|
    ensures multiset(letters[..i] + letters[i + 1..]) == multiset(letters) - multiset{letters[i]}
  {
    assert letters == letters[..i] + [letters[i]] + letters[i + 1..];
  }

  lemma StillSame(a: seq<Letter>, b: seq<Letter>, i: nat)
    requires a != [] && i < |b| && b[i] == a[0] && multiset(a) == multiset(b)
    ensures multiset(a[1..]) == multiset(b[..i] + b[i + 1..])
  {
    WithoutFirst(a);
    Without(b, i);
  }

  lemma WithoutFirst(letters: seq<Letter>)
    requires letters != []
    ensures multiset(letters[1..]) == multiset(letters) - multiset{letters[0]}
  {
    assert letters == [letters[0]] + letters[1..];
  }

  // The same letters in another order sort to the same list.
  lemma {:induction false} SortedSame(a: seq<Letter>, b: seq<Letter>)
    requires multiset(a) == multiset(b)
    ensures Sorted(a) == Sorted(b)
    decreases |a|
  {
    if a == [] {
      assert |multiset(b)| == 0;
    } else {
      assert a[0] in multiset(a);
      var i :| 0 <= i < |b| && b[i] == a[0];
      StillSame(a, b, i);
      SortedSame(a[1..], b[..i] + b[i + 1..]);
      SortedFront(b, i);
    }
  }

  lemma {:induction false} InsertCounts(id: Id, ids: seq<Id>)
    ensures multiset(Insert(id, ids)) == multiset(ids) + multiset{id}
  {
    if ids != [] && Below(ids[0], id) {
      InsertCounts(id, ids[1..]);
      assert ids == [ids[0]] + ids[1..];
    }
  }

  lemma {:induction false} SortedCounts(letters: seq<Letter>)
    ensures multiset(Sorted(letters)) == multiset(IdList(letters))
  {
    if letters != [] {
      SortedCounts(letters[1..]);
      InsertCounts(letters[0].id, Sorted(letters[1..]));
      assert IdList(letters) == [letters[0].id] + IdList(letters[1..]);
    }
  }

  // Other letters give another Id: what goes into the hash tells them apart.
  lemma OtherLettersOtherId(a: seq<Letter>, b: seq<Letter>, now: int, later: int)
    requires a != [] && b != [] && NoticeId(a, now) == NoticeId(b, later)
    ensures multiset(IdList(a)) == multiset(IdList(b))
  {
    SortedCounts(a);
    SortedCounts(b);
  }

  lemma {:induction false} NewestIsMax(letters: seq<Letter>)
    requires letters != []
    ensures exists l :: l in letters && l.installedAt == Newest(letters)
    ensures forall l :: l in letters ==> l.installedAt <= Newest(letters)
  {
    if |letters| == 1 {
      assert letters[0] in letters;
    } else {
      var n := |letters| - 1;
      NewestIsMax(letters[..n]);
      assert letters == letters[..n] + [letters[n]];
      assert letters[n] in letters;
    }
  }

  // A conduit that died between queueing and recording queues the same Id again
  // for the same letters, whenever it does so.
  lemma SameLettersSameId(a: seq<Letter>, b: seq<Letter>, now: int, later: int)
    requires a != [] && multiset(a) == multiset(b) && exists l :: l in a && l.installedAt > 0
    ensures b != [] && NoticeId(a, now) == NoticeId(b, later)
  {
    SortedSame(a, b);
    SameMembers(a, b);
    NewestIsMax(a);
    NewestIsMax(b);
  }

  lemma SameMembers(a: seq<Letter>, b: seq<Letter>)
    requires a != [] && multiset(a) == multiset(b)
    ensures b != [] && forall l :: l in a <==> l in b
  {
    var first := a[0];
    assert first in multiset(b);
    assert forall l :: l in a <==> l in multiset(a);
    assert forall l :: l in b <==> l in multiset(b);
  }

  // ------------------------------------------------------------- the record

  // How much of the record is read.
  const READ_LIMIT := 0x10_0000

  // writeParentNoticed: a header line, then one Id per line.
  function RecordText(header: string, ids: seq<Id>): string { Unlines([header] + ids) }

  // bufio.Scanner: the last line may lack its newline.
  function ScannedLines(s: string): seq<string> {
    var lines := Split(s);
    if lines[|lines| - 1] == "" then lines[..|lines| - 1] else lines
  }

  function IdsRead(text: string): set<Id> {
    var lines := ScannedLines(if |text| > READ_LIMIT then text[..READ_LIMIT] else text);
    if lines == [] || !("notice 1 " <= lines[0]) then {} else set l | l in lines[1..]
  }

  // The first k characters are the first m lines and p characters of the next.
  predicate CutAt(lines: seq<string>, k: nat, m: nat, p: nat) {
    && k < |Unlines(lines)| && m < |lines| && p <= |lines[m]|
    && Split(Unlines(lines)[..k]) == lines[..m] + [lines[m][..p]]
    && k == |Unlines(lines[..m])| + p
  }

  lemma CutAtOn(first: string, lines: seq<string>, k: nat, m: nat, p: nat)
    requires CutAt(lines, k, m, p) && OneLine(first)
    ensures CutAt([first] + lines, k + |first| + 1, m + 1, p)
  {
    var all := [first] + lines;
    assert all[1..] == lines;
    assert Unlines(all)[..k + |first| + 1] == first + "\n" + Unlines(lines)[..k];
    FirstLine(first, Unlines(lines)[..k]);
    assert all[..m + 1] == [first] + lines[..m];
    assert all[..m + 1][1..] == lines[..m];
  }

  lemma CutAtFirst(lines: seq<string>, k: nat)
    requires lines != [] && OneLine(lines[0]) && k <= |lines[0]|
    ensures CutAt(lines, k, 0, k)
  {
    assert Unlines(lines)[..k] == lines[0][..k];
    NoNewline(lines[0][..k]);
    assert lines[..0] == [];
  }

  // The lines of the first k characters: whole ones, then a part of the next.
  lemma {:induction false} SplitOfPrefix(lines: seq<string>, k: nat) returns (m: nat, p: nat)
    requires (forall l :: l in lines ==> OneLine(l)) && k < |Unlines(lines)|
    ensures CutAt(lines, k, m, p)
    ensures k < |Unlines(lines)| - 1 ==> m < |lines| - 1 || p < |lines[m]|
    decreases |lines|
  {
    var n := |lines[0]| + 1;
    assert lines[0] in lines && lines == [lines[0]] + lines[1..];
    if k < n {
      m, p := 0, k;
      CutAtFirst(lines, k);
    } else {
      m, p := SplitOfPrefix(lines[1..], k - n);
      CutAtOn(lines[0], lines[1..], k - n, m, p);
      m := m + 1;
    }
  }

  lemma NoNewline(s: string)
    requires OneLine(s)
    ensures Split(s) == [s]
  {
    assert forall i :: 0 <= i < |s| ==> s[i] in s;
  }

  predicate GoodRecord(header: string, ids: seq<Id>) {
    && OneLine(header) && "notice 1 " <= header && ids != []
    && (forall i :: 0 <= i < |ids| ==> OneLine(ids[i]) && ids[i] != "")
    && (forall i, j :: 0 <= i < j < |ids| ==> ids[i] != ids[j])
  }

  // A restarted conduit reads back every letter of the record exactly when the
  // record, without its last newline, is within the limit of one mebibyte.
  lemma RecordReadBackExact(header: string, ids: seq<Id>)
    requires GoodRecord(header, ids)
    ensures IdsRead(RecordText(header, ids)) == (set id | id in ids) <==> |RecordText(header, ids)| <= READ_LIMIT + 1
    ensures |RecordText(header, ids)| > READ_LIMIT + 1 ==> exists id :: id in ids && id !in IdsRead(RecordText(header, ids))
  {
    var lines, text := [header] + ids, RecordText(header, ids);
    assert forall l :: l in lines ==> OneLine(l);
    if |text| <= READ_LIMIT {
      SplitOfUnlines(lines);
      assert (lines + [""])[..|lines|] == lines;
      assert ScannedLines(text) == lines && lines[1..] == ids;
    } else {
      var m, p := SplitOfPrefix(lines, READ_LIMIT);
      CutRecord(header, ids, m, p);
    }
  }

  // What is read of a record that was cut to the lines `whole` and the part `last`.
  function IdsOfCut(whole: seq<string>, last: string): set<Id> {
    var lines := if last == "" then whole else whole + [last];
    if lines == [] || !("notice 1 " <= lines[0]) then {} else set l | l in lines[1..]
  }

  lemma CutIsRead(text: string, whole: seq<string>, last: string)
    requires |text| > READ_LIMIT && Split(text[..READ_LIMIT]) == whole + [last]
    ensures IdsRead(text) == IdsOfCut(whole, last)
  {
    assert (whole + [last])[..|whole|] == whole;
  }

  lemma CutRecord(header: string, ids: seq<Id>, m: nat, p: nat)
    requires GoodRecord(header, ids) && |RecordText(header, ids)| > READ_LIMIT
    requires var lines := [header] + ids;
      && m < |lines| && p <= |lines[m]| && Split(RecordText(header, ids)[..READ_LIMIT]) == lines[..m] + [lines[m][..p]]
      && READ_LIMIT == |Unlines(lines[..m])| + p
      && (READ_LIMIT < |RecordText(header, ids)| - 1 ==> m < |lines| - 1 || p < |lines[m]|)
    ensures if |RecordText(header, ids)| == READ_LIMIT + 1 then IdsRead(RecordText(header, ids)) == set id | id in ids
            else exists id :: id in ids && id !in IdsRead(RecordText(header, ids))
  {
    var lines := [header] + ids;
    CutIsRead(RecordText(header, ids), lines[..m], lines[m][..p]);
    if |RecordText(header, ids)| == READ_LIMIT + 1 {
      WholeButNewline(lines, m, p);
      CutNowhere(header, ids);
    } else if m == 0 {
      assert lines[..0] == [] && ids[0] in ids;
    } else {
      CutSomewhere(header, ids, m, p);
    }
  }

  lemma CutNowhere(header: string, ids: seq<Id>)
    requires GoodRecord(header, ids)
    ensures var lines := [header] + ids; var n := |ids|;
      IdsOfCut(lines[..n], lines[n][..|lines[n]|]) == set id | id in ids
  {
    var lines, n := [header] + ids, |ids|;
    assert lines[n][..|lines[n]|] == lines[n] == ids[n - 1];
    assert lines[..n] + [lines[n]] == lines && lines[1..] == ids;
  }

  lemma CutSomewhere(header: string, ids: seq<Id>, m: nat, p: nat)
    requires GoodRecord(header, ids) && 0 < m <= |ids|
    requires var lines := [header] + ids; p <= |lines[m]| && (m < |lines| - 1 || p < |lines[m]|)
    ensures var lines := [header] + ids; exists id :: id in ids && id !in IdsOfCut(lines[..m], lines[m][..p])
  {
    var lines := [header] + ids;
    LostLetter(lines, m, p);
    var i :| 1 <= i < |lines| && lines[i] !in (lines[..m] + [lines[m][..p]])[1..];
    assert lines[i] == ids[i - 1];
    ReadIsLess(lines[..m], lines[m][..p]);
    assert lines[i] in ids && lines[i] !in IdsOfCut(lines[..m], lines[m][..p]);
  }

  // A part that is empty is no line.
  lemma ReadIsLess(whole: seq<string>, last: string)
    requires whole != []
    ensures var read := whole + [last];
      var lines := if last == "" then read[..|read| - 1] else read;
      forall l :: l in lines[1..] ==> l in read[1..]
  {
    var read := whole + [last];
    assert read[..|read| - 1] == whole && read[1..] == whole[1..] + [last];
  }

  // Only the whole text but its last newline ends with the whole last line.
  lemma {:induction false} WholeButNewline(lines: seq<string>, m: nat, p: nat)
    requires m < |lines| && p <= |lines[m]| && |Unlines(lines[..m])| + p == |Unlines(lines)| - 1
    ensures m == |lines| - 1 && p == |lines[m]|
  {
    assert lines == lines[..m] + lines[m..];
    UnlinesAppends(lines[..m], lines[m..]);
    assert lines[m..][0] == lines[m] && lines[m..][1..] == lines[m + 1..];
    UnlinesLong(lines[m + 1..]);
  }

  lemma {:induction false} UnlinesLong(lines: seq<string>)
    ensures |Unlines(lines)| >= |lines|
  {
    if lines != [] {
      UnlinesLong(lines[1..]);
    }
  }

  // Among whole lines and a part of one, some Id of the record is missing.
  lemma LostLetter(lines: seq<string>, m: nat, p: nat)
    requires 0 < m < |lines| && p <= |lines[m]| && (m < |lines| - 1 || p < |lines[m]|)
    requires forall i, j :: 1 <= i < j < |lines| ==> lines[i] != lines[j]
    ensures exists i :: 1 <= i < |lines| && lines[i] !in (lines[..m] + [lines[m][..p]])[1..]
  {
    var read := lines[..m] + [lines[m][..p]];
    var i := if p < |lines[m]| then m else |lines| - 1;
    forall j | 0 <= j < |read[1..]|
      ensures read[1..][j] != lines[i]
    {
      assert read[1..][j] == read[j + 1];
    }
  }

  // ------------------------------------------------------ the imperative form

  class Notifier {
    const grace: int
    var parentWaiting: Option<int>
    var parentNoticed: Option<set<Id>>
    var record: string                  // run/parent-notices/<identity>
    ghost var past: State               // the history fields

    ghost function Abs(): State
      reads this
    {
      past.(waiting := parentWaiting, noticed := parentNoticed, record := record)
    }

    constructor (grace: int)
      ensures Initial(Abs()) && this.grace == grace
    {
      this.grace := grace;
      parentWaiting, parentNoticed, record := None, None, "";
      past := NEW;
    }

    method ReadParentNoticed() returns (covered: set<Id>)
      ensures covered == IdsRead(record)
    {
      var lines := ScannedLines(if |record| > READ_LIMIT then record[..READ_LIMIT] else record);
      covered := {};
      if lines != [] && "notice 1 " <= lines[0] {
        covered := AllIds(lines[1..]);
      }
    }

    method AllIds(lines: seq<string>) returns (ids: set<Id>)
      ensures ids == set l | l in lines
    {
      ids := {};
      var i := 0;
      while i < |lines|
        invariant 0 <= i <= |lines|
        invariant ids == set l | l in lines[..i]
      {
        assert lines[..i + 1] == lines[..i] + [lines[i]];
        ids := ids + {lines[i]};
        i := i + 1;
      }
      assert lines[..i] == lines;
    }

    method WriteParentNoticed(header: string, letters: seq<Letter>)
      modifies this`record
      ensures record == RecordText(header, IdList(letters))
    {
      var text := header + "\n";
      var i := 0;
      ghost var ids := IdList(letters);
      assert ([header] + ids[..0])[1..] == [];
      while i < |letters|
        invariant 0 <= i <= |letters|
        invariant text == Unlines([header] + ids[..i])
      {
        UnlinesAppends([header] + ids[..i], [ids[i]]);
        assert [header] + ids[..i + 1] == [header] + ids[..i] + [ids[i]];
        assert Unlines([ids[i]]) == ids[i] + "\n" by { assert Unlines([]) == ""; }
        text := text + (letters[i].id + "\n");
        i := i + 1;
      }
      assert ids[..i] == ids;
      record := text;
    }

    method HasUncovered(letters: seq<Letter>, covered: set<Id>) returns (found: bool)
      ensures found <==> exists l :: l in letters && l.id !in covered
    {
      var i := 0;
      while i < |letters|
        invariant 0 <= i <= |letters|
        invariant forall j :: 0 <= j < i ==> letters[j].id in covered
      {
        if letters[i].id !in covered {
          return true;
        }
        i := i + 1;
      }
      found := false;
    }

    // One scan of the identity; `queues` is whether its notice could be queued.
    method NoticeParent(scan: Scan, queues: bool) returns (o: Outcome)
      modifies this
      ensures o != Crashed && Comes(old(Abs()), scan, grace, o) && Abs() == Scanned(old(Abs()), scan, o)
      ensures o == (if !Waits(old(Abs()), scan) || scan.now - (if old(parentWaiting).Some? then old(parentWaiting).value else scan.now) < grace
                    then Quiet else if queues then Sent else QueueFailed)
    {
      ghost var before := Abs();
      past := past.(scans := past.scans + [(scan.now, Waits(before, scan))]);
      o := Quiet;
      if |scan.letters| == 0 {
        parentWaiting := None;
        return;
      }
      var covered: set<Id>;
      if parentNoticed.Some? {
        covered := parentNoticed.value;
      } else {
        covered := ReadParentNoticed();
        parentNoticed := Some(covered);
      }
      var uncovered := HasUncovered(scan.letters, covered);
      if !uncovered || !scan.parent || scan.live {
        parentWaiting := None;
        return;
      }
      o := MaybeNotice(scan, queues);
    }

    method MaybeNotice(scan: Scan, queues: bool) returns (o: Outcome)
      requires scan.letters != []
      modifies this
      ensures o != Crashed && (o == Sent ==> queues) && (o == QueueFailed ==> !queues)
      ensures var since := if old(parentWaiting).Some? then old(parentWaiting).value else scan.now;
        && (o == Quiet <==> scan.now - since < grace)
        && if o == Sent
           then parentWaiting == None && parentNoticed == Some(Ids(scan.letters)) && record == Recorded(scan) &&
                past == old(past).(announced := old(past).announced + Ids(scan.letters), sent := old(past).sent + 1)
           else parentWaiting == Some(since) && parentNoticed == old(parentNoticed) && record == old(record) && past == old(past)
    {
      if parentWaiting.None? {
        parentWaiting := Some(scan.now);
      }
      if scan.now - parentWaiting.value < grace {
        return Quiet;
      }
      if !queues {
        return QueueFailed;
      }
      var covered := set l | l in scan.letters :: l.id;
      parentWaiting := None;
      parentNoticed := Some(covered);
      WriteParentNoticed(scan.header, scan.letters);
      past := past.(announced := past.announced + covered, sent := past.sent + 1);
      o := Sent;
    }
  }
}
