/**
  Frames on a byte stream (link/protocol.go): what a writer puts there, what a
  reader takes from it, and what a broken connection leaves.
*/
module FrameStream {
  import opened Codec
  import opened Frames
  import opened Wrappers

  const MAX_CONTROL := 65536
  const DATA_SLACK := 4096

  // The bytes frameWriter.write puts on the wire.
  function OnWire(f: Frame): Bytes {
    [f.typ] + BigEndian(|f.payload|, 4) + f.payload
  }

  function Stream(fs: seq<Frame>): Bytes {
    if fs == [] then [] else OnWire(fs[0]) + Stream(fs[1..])
  }

  function PayloadLimit(typ: byte, maxObject: nat): nat {
    if typ == DATA then maxObject + DATA_SLACK else MAX_CONTROL
  }

  predicate Allowed(f: Frame, maxObject: nat) { |f.payload| <= PayloadLimit(f.typ, maxObject) }

  predicate Sizable(f: Frame) { |f.payload| < 0x1_0000_0000 }

  datatype Reading = Got(f: Frame, rest: Bytes) | Short | TooLong

  function ReadFrame(b: Bytes, maxObject: nat): Reading {
    if |b| < 5 then Short
    else
      var n := Number(b[1..5]);
      if n > PayloadLimit(b[0], maxObject) then TooLong
      else if |b| - 5 < n then Short
      else Got(Frame(b[0], b[5..5 + n]), b[5 + n..])
  }

  // The frames a reader gets before the stream ends or is refused.
  function ReadAll(b: Bytes, maxObject: nat): seq<Frame>
    decreases |b|
  {
    match ReadFrame(b, maxObject)
    case Got(f, rest) => [f] + ReadAll(rest, maxObject)
    case _ => []
  }

  // The frames before the first that is too long for the reader.
  function BeforeTooLong(fs: seq<Frame>, maxObject: nat): seq<Frame> {
    if fs == [] || !Allowed(fs[0], maxObject) then [] else [fs[0]] + BeforeTooLong(fs[1..], maxObject)
  }

  lemma WireParts(f: Frame, rest: Bytes)
    requires Sizable(f)
    ensures var b := OnWire(f) + rest;
      && b[0] == f.typ && Number(b[1..5]) == |f.payload| && b[5..5 + |f.payload|] == f.payload && b[5 + |f.payload|..] == rest
      && |OnWire(f)| == 5 + |f.payload|
  {
    Pow256Values();
    NumberOfBigEndian(|f.payload|, 4);
    assert (OnWire(f) + rest)[1..5] == BigEndian(|f.payload|, 4);
  }

  lemma ReadsFirst(f: Frame, rest: Bytes, maxObject: nat)
    requires Sizable(f)
    ensures ReadFrame(OnWire(f) + rest, maxObject) == if Allowed(f, maxObject) then Got(f, rest) else TooLong
  {
    WireParts(f, rest);
  }

  // The frames written read back as themselves, up to the first too long one.
  lemma {:induction false} StreamReadsBack(fs: seq<Frame>, maxObject: nat)
    requires forall f :: f in fs ==> Sizable(f)
    ensures ReadAll(Stream(fs), maxObject) == BeforeTooLong(fs, maxObject)
    ensures (forall f :: f in fs ==> Allowed(f, maxObject)) <==> ReadAll(Stream(fs), maxObject) == fs
    decreases |fs|
  {
    if fs != [] {
      assert fs[0] in fs && forall f :: f in fs <==> f == fs[0] || f in fs[1..];
      ReadsFirst(fs[0], Stream(fs[1..]), maxObject);
      StreamReadsBack(fs[1..], maxObject);
      assert fs == [fs[0]] + fs[1..];
    }
  }

  // The first k bytes of a frame and what follows it.
  lemma ReadsCut(f: Frame, rest: Bytes, k: nat, maxObject: nat)
    requires Sizable(f) && Allowed(f, maxObject) && k <= |OnWire(f) + rest|
    ensures ReadFrame((OnWire(f) + rest)[..k], maxObject) ==
            if k < |OnWire(f)| then Short else Got(f, rest[..k - |OnWire(f)|])
  {
    WireParts(f, rest);
    var b := OnWire(f) + rest;
    if k >= 5 {
      assert b[..k][1..5] == b[1..5];
      if k >= |OnWire(f)| {
        assert b[..k][5..5 + |f.payload|] == b[5..5 + |f.payload|];
        assert b[..k][5 + |f.payload|..] == rest[..k - |OnWire(f)|];
      }
    }
  }

  // `got` are the frames wholly within the first k bytes of the stream.
  predicate WhollyThere(fs: seq<Frame>, k: nat, got: seq<Frame>) {
    got <= fs && |Stream(got)| <= k && (|got| < |fs| ==> k < |Stream(fs[..|got| + 1])|)
  }

  lemma WhollyThereOn(f: Frame, fs: seq<Frame>, k: nat, got: seq<Frame>)
    requires WhollyThere(fs, k, got)
    ensures WhollyThere([f] + fs, k + |OnWire(f)|, [f] + got)
  {
    StreamCons(f, got);
    if |got| < |fs| {
      assert ([f] + fs)[..|got| + 2] == [f] + fs[..|got| + 1];
      StreamCons(f, fs[..|got| + 1]);
    }
  }

  lemma NothingThere(f: Frame, fs: seq<Frame>, k: nat)
    requires k < |OnWire(f)|
    ensures WhollyThere([f] + fs, k, [])
  {
    assert ([f] + fs)[..1] == [f] + [];
    StreamCons(f, []);
  }

  // A connection cut after k bytes: the reader has got the frames that are wholly
  // there, in order, and never another.
  lemma {:induction false} CutStreamIsPrefix(fs: seq<Frame>, k: nat, maxObject: nat)
    requires forall f :: f in fs ==> Sizable(f) && Allowed(f, maxObject)
    requires k <= |Stream(fs)|
    ensures WhollyThere(fs, k, ReadAll(Stream(fs)[..k], maxObject))
    decreases |fs|
  {
    if fs != [] {
      assert fs[0] in fs && forall f :: f in fs[1..] ==> f in fs;
      if k >= |OnWire(fs[0])| {
        CutStreamIsPrefix(fs[1..], k - |OnWire(fs[0])|, maxObject);
      }
      assert fs == [fs[0]] + fs[1..];
      CutOn(fs[0], fs[1..], k, maxObject);
    }
  }

  lemma CutOn(f: Frame, rest: seq<Frame>, k: nat, maxObject: nat)
    requires Sizable(f) && Allowed(f, maxObject) && k <= |OnWire(f)| + |Stream(rest)|
    requires k >= |OnWire(f)| ==> WhollyThere(rest, k - |OnWire(f)|, ReadAll(Stream(rest)[..k - |OnWire(f)|], maxObject))
    ensures |Stream([f] + rest)| == |OnWire(f)| + |Stream(rest)|
    ensures WhollyThere([f] + rest, k, ReadAll(Stream([f] + rest)[..k], maxObject))
  {
    StreamCons(f, rest);
    ReadsCut(f, Stream(rest), k, maxObject);
    if k >= |OnWire(f)| {
      WhollyThereOn(f, rest, k - |OnWire(f)|, ReadAll(Stream(rest)[..k - |OnWire(f)|], maxObject));
    } else {
      NothingThere(f, rest, k);
    }
  }

  lemma StreamCons(f: Frame, fs: seq<Frame>)
    ensures Stream([f] + fs) == OnWire(f) + Stream(fs)
  {
    assert ([f] + fs)[1..] == fs;
  }

  // ------------------------------------------------------ the imperative form

  // The other end: it may take fewer bytes than it is given, or fail.
  class Sink {
    var got: Bytes

    constructor ()
      ensures got == []
    {
      got := [];
    }

    method Write(p: Bytes, n: nat)
      requires n <= |p|
      modifies this
      ensures got == old(got) + p[..n]
    {
      got := got + p[..n];
    }
  }

  // Writes all of p, or reports failure after a prefix of it.
  method WriteFull(w: Sink, p: Bytes) returns (ok: bool)
    modifies w
    ensures old(w.got) <= w.got <= old(w.got) + p
    ensures ok ==> w.got == old(w.got) + p
  {
    var rest := p;
    while |rest| > 0
      invariant |rest| <= |p| && rest == p[|p| - |rest|..] && w.got == old(w.got) + p[..|p| - |rest|]
    {
      var n: nat, err: bool :| n <= |rest|;
      w.Write(rest, n);
      assert p[..|p| - |rest| + n] == p[..|p| - |rest|] + rest[..n];
      if err || n == 0 {
        return false;
      }
      rest := rest[n..];
    }
    ok := true;
  }

  // frameWriter.write, under its mutex.
  method WriteFrame(w: Sink, f: Frame) returns (ok: bool)
    modifies w
    ensures old(w.got) <= w.got <= old(w.got) + OnWire(f)
    ensures ok ==> w.got == old(w.got) + OnWire(f) && Sizable(f)
  {
    if |f.payload| >= 0x1_0000_0000 {
      return false;
    }
    var header := [f.typ] + BigEndian(|f.payload|, 4);
    ok := WriteFull(w, header);
    assert OnWire(f) == header + f.payload;
    if !ok {
      return;
    }
    ok := WriteFull(w, f.payload);
  }

  class Source {
    var left: Bytes

    constructor (left: Bytes)
      ensures this.left == left
    {
      this.left := left;
    }

    // io.ReadFull
    method ReadFull(n: nat) returns (p: Option<Bytes>)
      modifies this
      ensures if n <= |old(left)| then p == Some(old(left)[..n]) && left == old(left)[n..] else p == None && left == []
    {
      if n <= |left| {
        p := Some(left[..n]);
        left := left[n..];
      } else {
        left := [];
        p := None;
      }
    }
  }

  method ReadFrameFrom(r: Source, maxObject: nat) returns (f: Option<Frame>)
    modifies r
    ensures match ReadFrame(old(r.left), maxObject)
            case Got(g, rest) => f == Some(g) && r.left == rest
            case _ => f == None
  {
    ghost var b := r.left;
    var header := r.ReadFull(5);
    if header.None? {
      return None;
    }
    assert header.value[1..] == b[1..5];
    var n := Number(header.value[1..]);
    var limit := MAX_CONTROL;
    if header.value[0] == DATA {
      limit := maxObject + DATA_SLACK;
    }
    if n > limit {
      return None;
    }
    var payload := r.ReadFull(n);
    if payload.None? {
      return None;
    }
    assert b[5..][..n] == b[5..5 + n] && b[5..][n..] == b[5 + n..];
    f := Some(Frame(header.value[0], payload.value));
  }
}
