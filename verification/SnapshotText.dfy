/**
  Reading back what was printed: words, tokens and single records.
*/
module SnapshotText {
  import opened Snapshot
  import opened Text
  import opened Wrappers

  predicate Words(r: Record) { forall w :: w in r ==> Word(w) }

  predicate AllWords(rs: seq<Record>) { forall r :: r in rs ==> Words(r) }

  lemma ValueIsWord(v: string)
    requires ListenerValue(v)
    ensures Word(v) && '=' !in v
  {
  }

  lemma SafeIsValue(v: string)
    ensures ListenerValue(Safe(v)) && ListenerValue(SafeDigest(v))
  {
    assert ListenerValue("-") by { assert forall c :: c in "-" ==> c == '-'; }
    if DigestText(v) {
      assert forall c :: c in v ==> ValueChar(c);
    }
  }

  lemma DecIsValue(n: Int64)
    requires n >= 0
    ensures ListenerValue(Dec(n)) && Word(Dec(n)) && |Dec(n)| <= 19
  {
    DecInt64(n);
    assert forall c :: c in Dec(n) ==> ValueChar(c);
  }

  // ------------------------------------------------------------------- tokens

  predicate Tokenable(ps: seq<(string, string)>) {
    && (forall i :: 0 <= i < |ps| ==> Word(ps[i].0) && '=' !in ps[i].0 && ListenerValue(ps[i].1))
    && (forall i, j :: 0 <= i < j < |ps| ==> ps[i].0 != ps[j].0)
  }

  lemma {:induction false} TokensAreWords(ps: seq<(string, string)>)
    requires Tokenable(ps)
    ensures Words(Tokens(ps))
  {
    if ps != [] {
      ValueIsWord(ps[0].1);
      TokensAreWords(ps[1..]);
    }
  }

  // Every value is found again under its key.
  lemma {:induction false} TokensParse(m: map<string, string>, ps: seq<(string, string)>) returns (r: map<string, string>)
    requires Tokenable(ps) && forall i :: 0 <= i < |ps| ==> ps[i].0 !in m
    ensures ParseTokens(m, Tokens(ps)) == Some(r)
    ensures forall k :: k in m ==> k in r && r[k] == m[k]
    ensures forall i :: 0 <= i < |ps| ==> ps[i].0 in r && r[ps[i].0] == ps[i].1
    decreases |ps|
  {
    if ps == [] {
      r := m;
    } else {
      CutOfPair(ps[0].0, ps[0].1);
      assert Tokens(ps)[1..] == Tokens(ps[1..]);
      r := TokensParse(m[ps[0].0 := ps[0].1], ps[1..]);
      forall i | 0 <= i < |ps|
        ensures ps[i].0 in r && r[ps[i].0] == ps[i].1
      {
        if i > 0 {
          assert ps[i] == ps[1..][i - 1];
        }
      }
    }
  }

  // --------------------------------------------------------------- components

  function NormalComponent(c: Component): Component {
    Component(Safe(c.name), Safe(c.release), Safe(c.adapter), Safe(c.ears))
  }

  lemma ComponentTokenable(c: Component)
    ensures Tokenable(ComponentPairs(c))
  {
    SafeIsValue(c.release);
    SafeIsValue(c.adapter);
    SafeIsValue(c.ears);
    assert "release"[0] != "adapter"[0] && "release"[0] != "ears"[0] && "adapter"[0] != "ears"[0];
  }

  lemma ComponentParses(c: Component)
    ensures ParseComponent(ComponentRecord(c)) == Some(NormalComponent(c))
    ensures Words(ComponentRecord(c))
  {
    ComponentTokenable(c);
    SafeIsValue(c.name);
    ValueIsWord(Safe(c.name));
    TokensAreWords(ComponentPairs(c));
    var ps := ComponentPairs(c);
    var m := TokensParse(map[], ps);
    assert ComponentRecord(c)[2..] == Tokens(ps);
    assert ps[0].0 in m && ps[1].0 in m && ps[2].0 in m;
  }

  // --------------------------------------------------------------- identities

  function NormalIdentity(i: Identity): Identity {
    i.(name := Safe(i.name), cc := Safe(i.cc), generation := SafeDigest(i.generation),
       drainBefore := SafeDigest(i.drainBefore), drainAfter := SafeDigest(i.drainAfter))
  }

  // The 19 keys are told apart by their lengths and one letter each.
  lemma KeysDiffer(i: Identity, a: nat, b: nat)
    requires Printable(i) && a < b < 19
    ensures Pairs(i)[a].0 != Pairs(i)[b].0
  {
    var k, l := Pairs(i)[a].0, Pairs(i)[b].0;
    if |k| == |l| {
      if |k| == 17 {
        assert k[11] != l[11];
      } else {
        assert k[8 % |k|] != l[8 % |l|] || k[0] != l[0];
      }
    }
  }

  lemma PrincipalIsValue(v: string)
    requires v in PRINCIPALS
    ensures ListenerValue(v)
  {
  }

  lemma RouteIsValue(v: string)
    requires v in ROUTES
    ensures ListenerValue(v)
  {
    if v == "channel+socket" {
      assert forall c :: c in v ==> c in "chanelsokt+";
    }
  }

  lemma PhaseIsValue(v: string)
    requires v in PHASES
    ensures ListenerValue(v)
  {
  }

  lemma ReasonIsValue(v: string)
    requires v in REASONS
    ensures ListenerValue(v)
  {
  }

  lemma StatusIsValue(v: string)
    requires v in STATUSES
    ensures ListenerValue(v)
  {
  }

  lemma EnumIsValue(i: Identity)
    requires EnumsOk(i)
    ensures ListenerValue(i.principal) && ListenerValue(i.route) && ListenerValue(i.phase) && ListenerValue(i.reason)
    ensures ListenerValue(i.drainStatus) && ListenerValue(YesNo(i.listening))
  {
    PrincipalIsValue(i.principal);
    RouteIsValue(i.route);
    PhaseIsValue(i.phase);
    ReasonIsValue(i.reason);
    StatusIsValue(i.drainStatus);
    assert ListenerValue("yes") && ListenerValue("no");
  }

  lemma IdentityTokenable(i: Identity)
    requires Printable(i)
    ensures Tokenable(Pairs(i))
  {
    EnumIsValue(i);
    SafeIsValue(i.name);
    SafeIsValue(i.cc);
    SafeIsValue(i.generation);
    SafeIsValue(i.drainBefore);
    SafeIsValue(i.drainAfter);
    DecIsValue(i.pendingRing);
    DecIsValue(i.pendingInfo);
    DecIsValue(i.pendingOperator);
    DecIsValue(i.firstSeen);
    DecIsValue(i.oldestPending);
    DecIsValue(i.writtenRings);
    DecIsValue(i.lastWritten);
    DecIsValue(i.lastDrain);
    forall a, b | 0 <= a < b < |Pairs(i)|
      ensures Pairs(i)[a].0 != Pairs(i)[b].0
    {
      KeysDiffer(i, a, b);
    }
    KeysAreWords(i);
  }

  lemma LetterWord(k: string)
    requires k != [] && forall c :: c in k ==> 'a' <= c <= 'z' || c == '-'
    ensures Word(k) && '=' !in k
  {
  }

  predicate KeyText(k: string) { Word(k) && '=' !in k }

  lemma FirstKeys()
    ensures KeyText("name") && KeyText("principal") && KeyText("listening") && KeyText("route") && KeyText("phase") && KeyText("cc")
    ensures KeyText("reason")
  {
    LetterWord("principal");
    LetterWord("listening");
  }

  lemma CountKeys()
    ensures KeyText("pending-ring") && KeyText("pending-info") && KeyText("pending-operator") && KeyText("generation")
    ensures KeyText("first-seen") && KeyText("oldest-pending")
  {
    LetterWord("pending-ring");
    LetterWord("pending-info");
    LetterWord("pending-operator");
    LetterWord("oldest-pending");
  }

  lemma DrainKeys()
    ensures KeyText("written-rings") && KeyText("last-written") && KeyText("last-drain") && KeyText("last-drain-before")
    ensures KeyText("last-drain-after") && KeyText("last-drain-status")
  {
    LetterWord("written-rings");
    LetterWord("last-written");
    LetterWord("last-drain-before");
    LetterWord("last-drain-after");
    LetterWord("last-drain-status");
  }

  lemma KeysAreWords(i: Identity)
    requires Printable(i)
    ensures forall a :: 0 <= a < |Pairs(i)| ==> KeyText(Pairs(i)[a].0)
  {
    FirstKeys();
    CountKeys();
    DrainKeys();
  }

  // What the map of the tokens holds.
  predicate Holds(m: map<string, string>, i: Identity)
    requires Printable(i)
  {
    forall a :: 0 <= a < |Pairs(i)| ==> Pairs(i)[a].0 in m && m[Pairs(i)[a].0] == Pairs(i)[a].1
  }

  lemma CountParses(m: map<string, string>, k: string, n: Int64)
    requires n >= 0 && k in m && m[k] == Dec(n)
    ensures Snapshot.Count(m, k) == Some(n)
  {
    DecParses(n);
  }

  lemma CountsParse(m: map<string, string>, i: Identity, j: Identity)
    requires Printable(i) && Holds(m, i)
    requires j == NormalIdentity(i).(pendingRing := 0, pendingInfo := 0, pendingOperator := 0, firstSeen := 0, oldestPending := 0,
                                     writtenRings := 0, lastWritten := 0, lastDrain := 0)
    ensures Counted(j, m) == Some(NormalIdentity(i))
  {
    var ps := Pairs(i);
    assert ps[7] == ("pending-ring", Dec(i.pendingRing)) && ps[8] == ("pending-info", Dec(i.pendingInfo));
    assert ps[9] == ("pending-operator", Dec(i.pendingOperator)) && ps[11] == ("first-seen", Dec(i.firstSeen));
    assert ps[12] == ("oldest-pending", Dec(i.oldestPending)) && ps[13] == ("written-rings", Dec(i.writtenRings));
    assert ps[14] == ("last-written", Dec(i.lastWritten)) && ps[15] == ("last-drain", Dec(i.lastDrain));
    CountParses(m, "pending-ring", i.pendingRing);
    CountParses(m, "pending-info", i.pendingInfo);
    CountParses(m, "pending-operator", i.pendingOperator);
    CountParses(m, "first-seen", i.firstSeen);
    CountParses(m, "oldest-pending", i.oldestPending);
    CountParses(m, "written-rings", i.writtenRings);
    CountParses(m, "last-written", i.lastWritten);
    CountParses(m, "last-drain", i.lastDrain);
  }

  // The values that are not counts.
  lemma ValuesParse(m: map<string, string>, i: Identity)
    requires Printable(i) && Holds(m, i)
    ensures Get(m, "name") == Safe(i.name) && Get(m, "principal") == i.principal && Get(m, "listening") == YesNo(i.listening)
    ensures Get(m, "route") == i.route && Get(m, "phase") == i.phase && Get(m, "cc") == Safe(i.cc) && Get(m, "reason") == i.reason
    ensures "name" in m && "principal" in m && "listening" in m && "route" in m && "reason" in m
  {
    var ps := Pairs(i);
    assert ps[0] == ("name", Safe(i.name)) && ps[1] == ("principal", i.principal) && ps[2] == ("listening", YesNo(i.listening));
    assert ps[3] == ("route", i.route) && ps[4] == ("phase", i.phase) && ps[5] == ("cc", Safe(i.cc)) && ps[6] == ("reason", i.reason);
  }

  lemma DigestsParse(m: map<string, string>, i: Identity)
    requires Printable(i) && Holds(m, i)
    ensures Get(m, "generation") == SafeDigest(i.generation) && Get(m, "last-drain-before") == SafeDigest(i.drainBefore)
    ensures Get(m, "last-drain-after") == SafeDigest(i.drainAfter) && Get(m, "last-drain-status") == i.drainStatus
  {
    var ps := Pairs(i);
    assert ps[10] == ("generation", SafeDigest(i.generation)) && ps[16] == ("last-drain-before", SafeDigest(i.drainBefore));
    assert ps[17] == ("last-drain-after", SafeDigest(i.drainAfter)) && ps[18] == ("last-drain-status", i.drainStatus);
  }

  lemma IdentityOfPairs(m: map<string, string>, i: Identity)
    requires Printable(i) && Holds(m, i)
    ensures IdentityOf(m) == Some(NormalIdentity(i))
  {
    ValuesParse(m, i);
    DigestsParse(m, i);
    var j := NormalIdentity(i).(pendingRing := 0, pendingInfo := 0, pendingOperator := 0, firstSeen := 0, oldestPending := 0,
                                writtenRings := 0, lastWritten := 0, lastDrain := 0);
    CountsParse(m, i, j);
    SafeIsValue(i.cc);
    assert i.phase != "" && i.drainStatus != "";
    assert "yes" != "no";
  }

  lemma Headed(h: string, ws: seq<string>)
    requires Word(h) && Words(ws)
    ensures ([h] + ws)[0] == h && ([h] + ws)[1..] == ws && Words([h] + ws)
  {
  }

  lemma PairsParse(ps: seq<(string, string)>, i: Identity)
    requires Printable(i) && ps == Pairs(i) && Tokenable(ps)
    ensures ParseIdentity(Tokens(ps)) == Some(NormalIdentity(i))
  {
    var m := TokensParse(map[], ps);
    IdentityOfPairs(m, i);
  }

  lemma PairRecordParses(ps: seq<(string, string)>, i: Identity)
    requires Tokenable(ps) && ParseIdentity(Tokens(ps)) == Some(i)
    ensures var r := ["identity"] + Tokens(ps); ParseIdentity(r[1..]) == Some(i) && Words(r) && r[0] == "identity"
  {
    TokensAreWords(ps);
    LetterWord("identity");
    Headed("identity", Tokens(ps));
  }

  lemma IdentityParses(i: Identity)
    requires Printable(i)
    ensures ParseIdentity(IdentityRecord(i)[1..]) == Some(NormalIdentity(i))
    ensures Words(IdentityRecord(i)) && IdentityRecord(i)[0] == "identity"
  {
    IdentityTokenable(i);
    PairsParse(Pairs(i), i);
    PairRecordParses(Pairs(i), NormalIdentity(i));
  }
}
