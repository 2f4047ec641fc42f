/**
  Cutting a chat post into pieces (link/gateway.go): no piece is longer than the
  limit in UTF-16 units (RFC 2781, section 2.1), and joining the pieces again, with
  nothing or one newline at each seam, gives the text.
*/
module Split {
  // A Unicode code point as a Go string yields it.
  type Rune = r: int | 0 <= r <= 0x10FFFF

  const NEWLINE: Rune := 10

  function Units(r: Rune): (n: nat)
    ensures 1 <= n <= 2
  {
    if r < 0x10000 then 1 else 2
  }

  // utf16Len
  function Length(s: seq<Rune>): nat {
    if s == [] then 0 else Length(s[..|s| - 1]) + Units(s[|s| - 1])
  }

  // strings.Split(s, "\n"), on code points
  function Lines(s: seq<Rune>): (ls: seq<seq<Rune>>)
    ensures ls != []
  {
    if s == [] then [[]]
    else
      var before, r := Lines(s[..|s| - 1]), s[|s| - 1];
      if r == NEWLINE then before + [[]]
      else before[..|before| - 1] + [before[|before| - 1] + [r]]
  }

  // The lines joined by newlines again.
  function Joined(ls: seq<seq<Rune>>): seq<Rune> {
    if ls == [] then [] else if |ls| == 1 then ls[0]
    else Joined(ls[..|ls| - 1]) + [NEWLINE] + ls[|ls| - 1]
  }

  // A seam is between two lines, and the newline is dropped, or inside a line.
  datatype Cut = Between(line: nat) | Inside(line: nat, at: nat)

  // The chunks one after another, with what was dropped after each.
  function Glued(chunks: seq<seq<Rune>>, cuts: seq<Cut>): seq<Rune>
    requires |chunks| == |cuts|
  {
    if chunks == [] then []
    else
      var n := |chunks| - 1;
      Glued(chunks[..n], cuts[..n]) + chunks[n] + Dropped(cuts[n])
  }

  function Dropped(c: Cut): seq<Rune> { if c.Between? then [NEWLINE] else [] }

  // The text before the i-th line.
  function Head(lines: seq<seq<Rune>>, i: nat): seq<Rune>
    requires i <= |lines|
  {
    if i == 0 then [] else Joined(lines[..i]) + [NEWLINE]
  }

  // A seam that had to be: after chunk, `before` being the text up to the seam. A line
  // is begun anew where it and its newline did not fit; only a line that is too long
  // for any chunk is cut, and only where the next rune did not fit.
  predicate Due(lines: seq<seq<Rune>>, limit: nat, chunk: seq<Rune>, before: seq<Rune>, c: Cut) {
    match c
    case Between(i) => 0 < i < |lines| && before == Head(lines, i) && Length(chunk) + 1 + Length(lines[i]) > limit
    case Inside(i, k) =>
      && i < |lines| && 0 < k < |lines[i]| && before == Head(lines, i) + lines[i][..k]
      && Length(lines[i]) > limit && Length(chunk) + Units(lines[i][k]) > limit
  }

  predicate AllDue(chunks: seq<seq<Rune>>, cuts: seq<Cut>, lines: seq<seq<Rune>>, limit: nat) {
    |chunks| == |cuts| && forall j :: 0 <= j < |cuts| ==> DueAt(chunks, cuts, lines, limit, j)
  }

  predicate DueAt(chunks: seq<seq<Rune>>, cuts: seq<Cut>, lines: seq<seq<Rune>>, limit: nat, j: nat)
    requires j < |chunks| == |cuts|
  {
    Due(lines, limit, chunks[j], Glued(chunks[..j + 1], cuts[..j + 1]), cuts[j])
  }

  // The text is the chunks with nothing or one newline at each seam, and each seam
  // had to be.
  ghost predicate Rejoins(chunks: seq<seq<Rune>>, text: seq<Rune>, limit: nat) {
    chunks != [] &&
    var n := |chunks| - 1;
    exists cuts :: AllDue(chunks[..n], cuts, Lines(text), limit) && text == Glued(chunks[..n], cuts) + chunks[n]
  }

  predicate AllShort(chunks: seq<seq<Rune>>, limit: nat) {
    forall c :: c in chunks ==> Length(c) <= limit
  }

  lemma {:induction false} LengthJoins(a: seq<Rune>, b: seq<Rune>)
    ensures Length(a + b) == Length(a) + Length(b)
    decreases |b|
  {
    if b == [] {
      assert a + b == a;
    } else {
      var n := |b| - 1;
      LengthJoins(a, b[..n]);
      assert (a + b)[..|a + b| - 1] == a + b[..n];
    }
  }

  lemma LengthOne(r: Rune)
    ensures Length([r]) == Units(r)
  {
    var none: seq<Rune> := [];
    assert [r][..0] == none && Length(none) == 0;
  }

  lemma JoinedOn(ls: seq<seq<Rune>>, i: nat)
    requires i < |ls|
    ensures Joined(ls[..i + 1]) == Head(ls, i) + ls[i]
  {
    assert ls[..i + 1][..i] == ls[..i];
  }

  lemma NewLine(ls: seq<seq<Rune>>)
    requires ls != []
    ensures Joined(ls + [[]]) == Joined(ls) + [NEWLINE]
  {
    assert (ls + [[]])[..|ls|] == ls;
    assert Joined(ls) + [NEWLINE] + [] == Joined(ls) + [NEWLINE];
  }

  lemma LastRune(ls: seq<seq<Rune>>, line: seq<Rune>, r: Rune)
    ensures Joined(ls + [line + [r]]) == Joined(ls + [line]) + [r]
  {
    assert (ls + [line])[..|ls|] == ls && (ls + [line + [r]])[..|ls|] == ls;
    if ls != [] {
      assert Joined(ls) + [NEWLINE] + (line + [r]) == Joined(ls) + [NEWLINE] + line + [r];
    }
  }

  lemma {:induction false} LinesJoin(s: seq<Rune>)
    ensures Joined(Lines(s)) == s
    decreases |s|
  {
    if s != [] {
      var n := |s| - 1;
      LinesJoin(s[..n]);
      var before := Lines(s[..n]);
      assert s == s[..n] + [s[n]];
      if s[n] == NEWLINE {
        NewLine(before);
      } else {
        var k := |before| - 1;
        assert before == before[..k] + [before[k]];
        LastRune(before[..k], before[k], s[n]);
      }
    }
  }

  // And none of them holds a newline: they are the lines of the text.
  lemma {:induction false} LinesWhole(s: seq<Rune>, line: seq<Rune>)
    requires line in Lines(s)
    ensures NEWLINE !in line
    decreases |s|
  {
    if s != [] {
      var before, r := Lines(s[..|s| - 1]), s[|s| - 1];
      var last := before[|before| - 1];
      if line in before {
        LinesWhole(s[..|s| - 1], line);
      } else if r != NEWLINE {
        LinesWhole(s[..|s| - 1], last);
        assert line == last + [r];
      }
    }
  }

  // ----------------------------------------------------------------- UTF-16

  // Section 2.1 of RFC 2781: one unit below U+10000, else a surrogate pair.
  function Utf16(r: Rune): seq<nat> {
    if r < 0x10000 then [r] else [0xD800 + (r - 0x10000) / 0x400, 0xDC00 + (r - 0x10000) % 0x400]
  }

  function Utf16All(s: seq<Rune>): seq<nat> { if s == [] then [] else Utf16All(s[..|s| - 1]) + Utf16(s[|s| - 1]) }

  // The length that is limited is the one of the text in UTF-16.
  lemma {:induction false} LengthIsUtf16(s: seq<Rune>)
    ensures Length(s) == |Utf16All(s)|
  {
    if s != [] {
      LengthIsUtf16(s[..|s| - 1]);
    }
  }

  lemma GluedMore(chunks: seq<seq<Rune>>, cuts: seq<Cut>, chunk: seq<Rune>, c: Cut)
    requires |chunks| == |cuts|
    ensures Glued(chunks + [chunk], cuts + [c]) == Glued(chunks, cuts) + chunk + Dropped(c)
  {
    assert (chunks + [chunk])[..|chunks|] == chunks && (cuts + [c])[..|cuts|] == cuts;
  }

  lemma DueMore(chunks: seq<seq<Rune>>, cuts: seq<Cut>, lines: seq<seq<Rune>>, limit: nat, chunk: seq<Rune>, c: Cut)
    requires AllDue(chunks, cuts, lines, limit) && Due(lines, limit, chunk, Glued(chunks, cuts) + chunk + Dropped(c), c)
    ensures AllDue(chunks + [chunk], cuts + [c], lines, limit)
  {
    var more, all := chunks + [chunk], cuts + [c];
    forall j | 0 <= j < |all|
      ensures DueAt(more, all, lines, limit, j)
    {
      if j < |cuts| {
        assert more[..j + 1] == chunks[..j + 1] && all[..j + 1] == cuts[..j + 1];
        assert DueAt(chunks, cuts, lines, limit, j);
      } else {
        GluedMore(chunks, cuts, chunk, c);
        assert more[..j + 1] == more && all[..j + 1] == all;
      }
    }
  }

  class Splitter {
    const limit: nat
    const lines: seq<seq<Rune>>
    var chunks: seq<seq<Rune>>
    var current: seq<Rune>
    var currentUnits: nat
    ghost var cuts: seq<Cut>        // the seam after each chunk
    ghost var text: seq<Rune>       // what has been taken in

    ghost predicate Valid()
      reads this
    {
      && limit >= 2 && currentUnits == Length(current) <= limit && AllShort(chunks, limit)
      && AllDue(chunks, cuts, lines, limit) && text == Glued(chunks, cuts) + current
    }

    constructor (lines: seq<seq<Rune>>, limit: nat)
      requires limit >= 2
      ensures Valid() && this.limit == limit && this.lines == lines && text == [] && current == []
    {
      this.limit := limit;
      this.lines := lines;
      chunks, current, currentUnits := [], [], 0;
      cuts, text := [], [];
    }

    method Emit()
      modifies this`chunks, this`current, this`currentUnits
      ensures chunks == old(chunks) + [old(current)] && current == [] && currentUnits == 0
    {
      chunks := chunks + [current];
      current := [];
      currentUnits := 0;
    }

    // emit() at a seam that is due.
    method EmitAt(ghost c: Cut)
      requires Valid() && Due(lines, limit, current, text + Dropped(c), c)
      modifies this
      ensures Valid() && current == [] && text == old(text) + Dropped(c)
    {
      DueMore(chunks, cuts, lines, limit, current, c);
      GluedMore(chunks, cuts, current, c);
      Emit();
      cuts := cuts + [c];
      text := text + Dropped(c);
    }

    method Write(s: seq<Rune>, units: nat)
      requires Valid() && units == Length(s) && currentUnits + units <= limit
      modifies this
      ensures Valid() && text == old(text) + s && current == old(current) + s
    {
      LengthJoins(current, s);
      current := current + s;
      currentUnits := currentUnits + units;
      text := text + s;
    }

    method WriteRune(i: nat, k: nat)
      requires Valid() && i < |lines| && k < |lines[i]| && Length(lines[i]) > limit
      requires text == Head(lines, i) + lines[i][..k] && (k == 0 ==> current == [])
      modifies this
      ensures Valid() && text == old(text) + [lines[i][k]]
    {
      var size := Units(lines[i][k]);
      if currentUnits + size > limit {
        assert text + [] == text;
        assert k > 0 by { assert current == [] ==> Length(current) == 0; }
        EmitAt(Inside(i, k));
      }
      LengthOne(lines[i][k]);
      Write([lines[i][k]], size);
    }

    // The runes of a line that is too long for any chunk.
    method WriteRunes(i: nat)
      requires Valid() && i < |lines| && text == Head(lines, i) && current == [] && Length(lines[i]) > limit
      modifies this
      ensures Valid() && text == Head(lines, i) + lines[i]
    {
      var line := lines[i];
      var k := 0;
      assert line[..0] == [] && text == Head(lines, i) + [];
      while k < |line|
        invariant 0 <= k <= |line| && Valid() && text == Head(lines, i) + line[..k]
        invariant k == 0 ==> current == []
      {
        WriteRune(i, k);
        assert Head(lines, i) + line[..k] + [line[k]] == Head(lines, i) + line[..k + 1];
        k := k + 1;
      }
      assert line[..k] == line;
    }

    method WriteLine(i: nat)
      requires Valid() && i < |lines| && text == Head(lines, i) && (current == [] || currentUnits + Length(lines[i]) <= limit)
      modifies this
      ensures Valid() && text == Head(lines, i) + lines[i]
    {
      var units := Length(lines[i]);
      if currentUnits + units <= limit {
        Write(lines[i], units);
        return;
      }
      WriteRunes(i);
    }

    method TakeLine(i: nat)
      requires Valid() && i < |lines| && text == Joined(lines[..i]) && (i == 0 ==> current == [])
      modifies this
      ensures Valid() && text == Joined(lines[..i + 1])
    {
      JoinedOn(lines, i);
      if i > 0 {
        BreakLine(i);
      }
      WriteLine(i);
    }

    method TakeLines()
      requires Valid() && text == [] && current == []
      modifies this
      ensures Valid() && text == Joined(lines)
    {
      var i := 0;
      while i < |lines|
        invariant 0 <= i <= |lines| && Valid() && text == Joined(lines[..i]) && (i == 0 ==> current == [])
      {
        TakeLine(i);
        i := i + 1;
      }
      assert lines[..i] == lines;
    }

    // The last piece ends with the text.
    method Finish(ghost whole: seq<Rune>) returns (all: seq<seq<Rune>>)
      requires Valid() && lines == Lines(whole) && text == whole
      modifies this
      ensures all != [] && AllShort(all, limit) && Rejoins(all, whole, limit)
    {
      ghost var n, before, last := |chunks|, chunks, current;
      Emit();
      all := chunks;
      assert all[..n] == before && all[n] == last;
      assert AllDue(all[..n], cuts, Lines(whole), limit) && whole == Glued(all[..n], cuts) + all[n];
    }

    // The newline before a line: kept if it and the line still fit, else a new piece
    // begins and it is dropped.
    method BreakLine(i: nat)
      requires Valid() && 0 < i < |lines| && text == Joined(lines[..i])
      modifies this
      ensures Valid() && text == Head(lines, i) && (current == [] || currentUnits + Length(lines[i]) <= limit)
    {
      var units := Length(lines[i]);
      if currentUnits + 1 + units <= limit {
        LengthOne(NEWLINE);
        Write([NEWLINE], 1);
      } else {
        EmitAt(Between(i));
      }
    }
  }

  lemma OneChunk(text: seq<Rune>, limit: nat)
    ensures Rejoins([text], text, limit)
  {
    var none: seq<seq<Rune>>, cuts: seq<Cut> := [], [];
    assert [text][..0] == none && AllDue(none, cuts, Lines(text), limit) && text == Glued(none, cuts) + text;
  }

  method SplitMessage(text: seq<Rune>, limit: nat) returns (chunks: seq<seq<Rune>>)
    requires limit >= 2
    ensures chunks != [] && AllShort(chunks, limit) && Rejoins(chunks, text, limit)
    ensures Length(text) <= limit ==> chunks == [text]
  {
    if Length(text) <= limit {
      chunks := [text];
      OneChunk(text, limit);
      return;
    }
    var lines := Lines(text);
    var s := new Splitter(lines, limit);
    s.TakeLines();
    LinesJoin(text);
    chunks := s.Finish(text);
  }

  // So a line that fits into a chunk is never cut.
  lemma FittingLineUncut(chunks: seq<seq<Rune>>, cuts: seq<Cut>, lines: seq<seq<Rune>>, limit: nat, j: nat)
    requires AllDue(chunks, cuts, lines, limit) && j < |cuts| && cuts[j].Inside?
    ensures cuts[j].line < |lines| && Length(lines[cuts[j].line]) > limit
  {
    assert DueAt(chunks, cuts, lines, limit, j);
  }
}
