/**
  The reader of listener snapshots on any text at all: whatever it accepts is a
  well-formed snapshot of the node it was asked for, and lines under headers it does
  not know make no difference.
*/
module SnapshotReader {
  import opened Snapshot
  import opened SnapshotRoundTrip
  import opened Text
  import opened Wrappers

  // ------------------------------------------------------- what it may accept

  predicate ReadIdentity(i: Identity) {
    && 1 <= |i.name| <= 64 && 1 <= |i.cc| <= 64
    && i.principal in ["session", "watcher", "gateway"] && i.route in ["socket", "channel", "channel+socket", "none"]
    && i.phase in ["ready", "starting", "-"] && i.drainStatus in ["ok", "partial", "-"]
    && i.reason in ["-", "noreg", "boot", "phase", "optin", "pid", "session", "socket", "registry", "lease"]
    && (i.listening <==> i.route != "none")
    && DigestOrNone(i.generation) && DigestOrNone(i.drainBefore) && DigestOrNone(i.drainAfter)
    && i.pendingRing >= 0 && i.pendingInfo >= 0 && i.pendingOperator >= 0 && i.firstSeen >= 0 && i.oldestPending >= 0
    && i.writtenRings >= 0 && i.lastWritten >= 0 && i.lastDrain >= 0
  }

  predicate DigestOrNone(v: string) { v == "-" || (|v| == 64 && forall c :: c in v ==> '0' <= c <= '9' || 'a' <= c <= 'f') }

  predicate ReadName(v: string) { v != [] && v[0] != '-' && forall c :: c in v ==> 'a' <= c <= 'z' || '0' <= c <= '9' || c == '-' }

  predicate NamesOnce(ids: seq<Identity>) { forall a, b :: 0 <= a < b < |ids| ==> ids[a].name != ids[b].name }

  // What holds of the reader's state after any lines.
  predicate Sane(p: Parsing) {
    var r := p.result;
    && r.generation >= 0 && r.writtenAt >= 0 && r.linkAge >= -1 && r.truncated >= 0
    && ("interval" in p.seen ==> r.interval > 0) && ("state" in p.seen ==> r.state == "running" || r.state == "stopping")
    && ("truncated" !in p.seen ==> r.truncated == 0)
    && (forall m :: m in r.mailboxes ==> ReadName(m))
    && (forall i :: i in r.identities ==> ReadIdentity(i) && i.name in p.names) && NamesOnce(r.identities)
    && p.names == set i | i in r.identities :: i.name
  }

  lemma CountedCounts(i: Identity, m: map<string, string>)
    requires Counted(i, m).Some?
    ensures var j := Counted(i, m).value;
      && j == i.(pendingRing := j.pendingRing, pendingInfo := j.pendingInfo, pendingOperator := j.pendingOperator, firstSeen := j.firstSeen,
                 oldestPending := j.oldestPending, writtenRings := j.writtenRings, lastWritten := j.lastWritten, lastDrain := j.lastDrain)
      && j.pendingRing >= 0 && j.pendingInfo >= 0 && j.pendingOperator >= 0 && j.firstSeen >= 0 && j.oldestPending >= 0
      && j.writtenRings >= 0 && j.lastWritten >= 0 && j.lastDrain >= 0
  {
  }

  lemma {:induction false} TokenValues(m: map<string, string>, words: seq<string>)
    requires ParseTokens(m, words).Some? && forall k :: k in m ==> ListenerValue(m[k])
    ensures forall k :: k in ParseTokens(m, words).value ==> ListenerValue(ParseTokens(m, words).value[k])
    decreases |words|
  {
    if words != [] {
      var kv := Cut(words[0]).value;
      TokenValues(m[kv.0 := kv.1], words[1..]);
    }
  }

  // A token the reader takes: a key, "=", and a value the format can carry.
  predicate GoodToken(w: string) {
    '=' in w && Key(w) != "" && ListenerValue(w[|Key(w)| + 1..])
  }

  // What stands before the first "=".
  function Key(w: string): (k: string)
    ensures |k| <= |w| && ('=' in w ==> |k| < |w|)
  {
    if w == "" || w[0] == '=' then "" else [w[0]] + Key(w[1..])
  }

  lemma {:induction false} KeyIsCut(w: string)
    ensures Cut(w) == if '=' in w then Some((Key(w), w[|Key(w)| + 1..])) else None
  {
    KeyEnds(w);
    assert forall i :: 0 <= i < |w| && w[i] == '=' ==> '=' in w;
  }

  lemma {:induction false} KeyEnds(w: string)
    ensures Key(w) == w[..KeyEnd(w)] && ('=' in w <==> KeyEnd(w) < |w|)
  {
    if w != "" && w[0] != '=' {
      KeyEnds(w[1..]);
      assert w == [w[0]] + w[1..];
    }
  }

  // All tokens are good, and no key comes twice or is one of `keys`.
  predicate GoodTokens(keys: set<string>, words: seq<string>) {
    && (forall i :: 0 <= i < |words| ==> GoodToken(words[i]) && Key(words[i]) !in keys)
    && (forall i, j :: 0 <= i < j < |words| ==> Key(words[i]) != Key(words[j]))
  }

  lemma GoodTail(keys: set<string>, words: seq<string>)
    requires words != [] && GoodTokens(keys, words)
    ensures GoodTokens(keys + {Key(words[0])}, words[1..])
  {
    assert forall j :: 0 <= j < |words[1..]| ==> words[1..][j] == words[j + 1];
  }

  lemma GoodWhole(keys: set<string>, words: seq<string>)
    requires words != [] && GoodToken(words[0]) && Key(words[0]) !in keys && GoodTokens(keys + {Key(words[0])}, words[1..])
    ensures GoodTokens(keys, words)
  {
    var rest := words[1..];
    forall i | 0 < i < |words|
      ensures GoodToken(words[i]) && Key(words[i]) !in keys + {Key(words[0])}
    {
      assert words[i] == rest[i - 1];
    }
    forall i, j | 0 < i < j < |words|
      ensures Key(words[i]) != Key(words[j])
    {
      assert words[i] == rest[i - 1] && words[j] == rest[j - 1];
    }
  }

  // A list of tokens is read if and only if each is good and no key comes twice.
  lemma {:induction false} TokensExact(m: map<string, string>, words: seq<string>)
    requires forall k :: k in m ==> ListenerValue(m[k])
    ensures ParseTokens(m, words).Some? <==> GoodTokens(m.Keys, words)
    decreases |words|
  {
    if words != [] {
      var w := words[0];
      KeyIsCut(w);
      if GoodToken(w) && Key(w) !in m {
        var more := m[Key(w) := w[|Key(w)| + 1..]];
        TokensExact(more, words[1..]);
        assert more.Keys == m.Keys + {Key(w)};
        if GoodTokens(m.Keys, words) {
          GoodTail(m.Keys, words);
        }
        if GoodTokens(more.Keys, words[1..]) {
          GoodWhole(m.Keys, words);
        }
      }
    }
  }

  lemma IdentityIsSane(words: seq<string>)
    requires ParseIdentity(words).Some?
    ensures ReadIdentity(ParseIdentity(words).value)
  {
    var m := ParseTokens(map[], words).value;
    var i := Identity(Get(m, "name"), Get(m, "principal"), Get(m, "listening") == "yes", Get(m, "route"), OrDash(Get(m, "phase")),
                      OrDash(Get(m, "cc")), Get(m, "reason"), 0, 0, 0, OrDash(Get(m, "generation")), 0, 0, 0, 0, 0,
                      OrDash(Get(m, "last-drain-before")), OrDash(Get(m, "last-drain-after")), OrDash(Get(m, "last-drain-status")));
    TokenValues(map[], words);
    CountedCounts(i, m);
  }

  lemma ValueIsSane(p: Parsing, key: string, v: string, index: nat)
    requires Sane(p) && key in SINGLE && key != "mailbox" && key !in p.seen && ParseValue(p.result, key, v).Some?
    ensures Sane(p.(seen := p.seen + {key}, result := ParseValue(p.result, key, v).value, truncatedAt := index))
    ensures Sane(p.(seen := p.seen + {key}, result := ParseValue(p.result, key, v).value))
  {
  }

  lemma RecordIsSane(p: Parsing, index: nat, words: Record)
    requires Sane(p) && ParseRecord(p, index, words).Some?
    ensures Sane(ParseRecord(p, index, words).value)
  {
    if words != [] && words[0] == "identity" {
      IdentityIsSane(words[1..]);
      var i := ParseIdentity(words[1..]).value;
      IdentityAdds(p, i);
    } else if words != [] && words[0] != "component" && words[0] in SINGLE && words[0] != "mailbox" {
      ValueIsSane(p, words[0], words[1], index);
    }
  }

  lemma IdentityAdds(p: Parsing, i: Identity)
    requires Sane(p) && ReadIdentity(i) && i.name !in p.names
    ensures Sane(p.(names := p.names + {i.name}, result := p.result.(identities := p.result.identities + [i])))
  {
    NamesGrow(p.result.identities, i, p.names);
  }

  lemma NamesGrow(ids: seq<Identity>, i: Identity, names: set<string>)
    requires NamesOnce(ids) && names == (set j | j in ids :: j.name) && i.name !in names
    ensures NamesOnce(ids + [i]) && names + {i.name} == set j | j in ids + [i] :: j.name
  {
    forall a | 0 <= a < |ids|
      ensures ids[a].name != i.name
    {
      assert ids[a] in ids;
    }
  }

  lemma {:induction false} LinesAreSane(p: Parsing, index: nat, lines: seq<string>)
    requires Sane(p) && ParseLines(p, index, lines).Some?
    ensures Sane(ParseLines(p, index, lines).value)
    decreases |lines|
  {
    if lines != [] {
      RecordIsSane(p, index, Fields(lines[0]));
      LinesAreSane(ParseRecord(p, index, Fields(lines[0])).value, index + 1, lines[1..]);
    }
  }

  // Whatever text the reader accepts, what it returns is well formed.
  lemma AcceptedIsSane(data: string, node: string)
    requires Parse(data, node).Some?
    ensures var r := Parse(data, node).value;
      && r.node == node && r.generation >= 0 && r.writtenAt >= 0 && r.interval > 0 && (r.state == "running" || r.state == "stopping")
      && r.components != [] && r.linkAge >= -1 && (forall m :: m in r.mailboxes ==> ReadName(m))
      && (forall i :: i in r.identities ==> ReadIdentity(i)) && NamesOnce(r.identities)
      && r.truncated >= 0 && (r.complete ==> r.truncated == 0)
    ensures |data| <= 131072
  {
    var lines := Lined(data);
    LinesAreSane(START, 1, lines[1..]);
  }

  // ----------------------------------------------------------- unknown headers

  predicate KnownHeader(w: string) {
    w in ["node", "generation", "written-at", "interval", "state", "complete", "component", "mailbox", "link", "identity", "truncated"]
  }

  // The same but for the line the trailer was at.
  predicate Alike(p: Option<Parsing>, q: Option<Parsing>) {
    match p
    case None => q == None
    case Some(a) => q.Some? && q.value == a.(truncatedAt := q.value.truncatedAt)
  }

  lemma RecordAlike(p: Parsing, q: Parsing, i: nat, j: nat, r: Record)
    requires Alike(Some(p), Some(q))
    ensures Alike(ParseRecord(p, i, r), ParseRecord(q, j, r))
  {
  }

  lemma {:induction false} ReadsAlike(p: Parsing, q: Parsing, i: nat, j: nat, rs: seq<Record>)
    requires Alike(Some(p), Some(q))
    ensures Alike(Reads(p, i, rs), Reads(q, j, rs))
    decreases |rs|
  {
    if rs != [] {
      RecordAlike(p, q, i, j, rs[0]);
      if ParseRecord(p, i, rs[0]).Some? {
        ReadsAlike(ParseRecord(p, i, rs[0]).value, ParseRecord(q, j, rs[0]).value, i + 1, j + 1, rs[1..]);
      }
    }
  }

  // A line that is empty or begins with a word the reader does not know changes
  // nothing of what is read, wherever it stands.
  lemma UnknownLineIgnored(p: Parsing, i: nat, before: seq<Record>, r: Record, rest: seq<Record>)
    requires r == [] || !KnownHeader(r[0])
    ensures Alike(Reads(p, i, before + rest), Reads(p, i, before + [r] + rest))
  {
    ReadsOn(p, i, before, rest);
    ReadsOn(p, i, before + [r], rest);
    ReadsOn(p, i, before, [r]);
    var mid := Reads(p, i, before);
    if mid.Some? {
      ReadsOne(mid.value, i + |before|, r);
      assert ParseRecord(mid.value, i + |before|, r) == mid;
      ReadsAlike(mid.value, mid.value, i + |before|, i + |before| + 1, rest);
    }
  }
}
