/**
  Text as the Go programs read and write it: decimal numbers, fields, lines, and
  key=value tokens. Strings stand for bytes; only ASCII white space separates.
*/
module Text {
  import opened Wrappers

  // ------------------------------------------------------------------ numbers

  const MAX_INT64 := 0x7FFF_FFFF_FFFF_FFFF

  predicate IsDigit(c: char) { '0' <= c <= '9' }

  predicate Digits(s: string) { forall c :: c in s ==> IsDigit(c) }

  function Dec(n: nat): (s: string)
    ensures s != [] && Digits(s)
  {
    if n < 10 then ['0' + n as char] else Dec(n / 10) + ['0' + (n % 10) as char]
  }

  function Value(s: string): nat
    requires Digits(s)
  {
    if s == [] then 0
    else
      assert s[|s| - 1] in s;
      Value(s[..|s| - 1]) * 10 + (s[|s| - 1] as int - '0' as int)
  }

  // strconv.ParseInt(s, 10, 64): an optional sign, then at least one digit.
  function ParseInt(s: string): Option<int> {
    var body := if s != [] && (s[0] == '+' || s[0] == '-') then s[1..] else s;
    if body == [] || !Digits(body) then None
    else if s[0] == '-' then (if Value(body) > MAX_INT64 + 1 then None else Some(-(Value(body) as int)))
    else if Value(body) > MAX_INT64 then None
    else Some(Value(body))
  }

  function ParseNonnegative(s: string): Option<nat> {
    var n := ParseInt(s);
    if n.None? || n.value < 0 then None else Some(n.value)
  }

  lemma {:induction false} ValueOfDec(n: nat)
    ensures Value(Dec(n)) == n
  {
    if n < 10 {
      var none: string := [];
      assert Dec(n)[..|Dec(n)| - 1] == none;
      assert Value(none) == 0;
    } else {
      ValueOfDec(n / 10);
      assert Dec(n)[..|Dec(n)| - 1] == Dec(n / 10);
    }
  }

  lemma DecParses(n: nat)
    requires n <= MAX_INT64
    ensures ParseNonnegative(Dec(n)) == Some(n)
  {
    ValueOfDec(n);
    assert Dec(n)[0] in Dec(n);
  }

  function Pow10(k: nat): nat { if k == 0 then 1 else 10 * Pow10(k - 1) }

  lemma {:induction false} DecLength(n: nat, k: nat)
    requires 1 <= k && n < Pow10(k)
    ensures |Dec(n)| <= k
  {
    if n >= 10 {
      assert k > 1 by { assert Pow10(1) == 10 * Pow10(0) == 10; }
      DecLength(n / 10, k - 1);
    }
  }

  lemma DecInt64(n: nat)
    requires n <= MAX_INT64
    ensures |Dec(n)| <= 19
  {
    assert Pow10(4) == 10000;
    assert Pow10(8) == 100000000;
    assert Pow10(12) == 1000000000000;
    assert Pow10(16) == 10000000000000000;
    assert Pow10(19) == 10000000000000000000;
    DecLength(n, 19);
  }

  // ------------------------------------------------------------------- fields

  predicate Space(c: char) { c in " \t\n\r" || c == 11 as char || c == 12 as char }

  // A non-empty word without white space.
  predicate Word(s: string) { s != [] && forall c :: c in s ==> !Space(c) }

  // How many characters of s come before the first white space.
  function WordEnd(s: string): (n: nat)
    ensures n <= |s|
    ensures forall i :: 0 <= i < n ==> !Space(s[i])
    ensures n < |s| ==> Space(s[n])
  {
    if s == [] || Space(s[0]) then 0 else 1 + WordEnd(s[1..])
  }

  // strings.Fields
  function Fields(s: string): seq<string>
    decreases |s|
  {
    if s == [] then []
    else if Space(s[0]) then Fields(s[1..])
    else [s[..WordEnd(s)]] + Fields(s[WordEnd(s)..])
  }

  // strings.Join(words, " ")
  function Join(words: seq<string>): string {
    if words == [] then "" else if |words| == 1 then words[0] else words[0] + " " + Join(words[1..])
  }

  lemma FirstWord(w: string, rest: string)
    requires Word(w) && (rest == [] || Space(rest[0]))
    ensures Fields(w + rest) == [w] + Fields(rest)
  {
    var s := w + rest;
    assert forall i :: 0 <= i < |w| ==> s[i] == w[i] && s[i] in w;
    assert rest != [] ==> s[|w|] == rest[0];
    assert WordEnd(s) == |w|;
    assert s[..|w|] == w && s[|w|..] == rest;
  }

  // Fields undoes Join.
  lemma {:induction false} FieldsOfJoin(words: seq<string>)
    requires forall w :: w in words ==> Word(w)
    ensures Fields(Join(words)) == words
    decreases |words|
  {
    if words == [] {
    } else if |words| == 1 {
      FirstWord(words[0], "");
      assert words[0] + "" == words[0];
      assert Fields("") == [];
    } else {
      FieldsOfJoin(words[1..]);
      FirstWord(words[0], " " + Join(words[1..]));
      assert words[0] + " " + Join(words[1..]) == words[0] + (" " + Join(words[1..]));
      assert (" " + Join(words[1..]))[1..] == Join(words[1..]);
    }
  }

  // -------------------------------------------------------------------- lines

  function LineEnd(s: string): (n: nat)
    ensures n <= |s|
    ensures forall i :: 0 <= i < n ==> s[i] != '\n'
    ensures n < |s| ==> s[n] == '\n'
  {
    if s == [] || s[0] == '\n' then 0 else 1 + LineEnd(s[1..])
  }

  // bytes.Split(s, "\n")
  function Split(s: string): (lines: seq<string>)
    ensures lines != []
    decreases |s|
  {
    var n := LineEnd(s);
    if n == |s| then [s] else [s[..n]] + Split(s[n + 1..])
  }

  predicate OneLine(s: string) { '\n' !in s }

  function Unlines(lines: seq<string>): string {
    if lines == [] then "" else lines[0] + "\n" + Unlines(lines[1..])
  }

  lemma FirstLine(l: string, rest: string)
    requires OneLine(l)
    ensures Split(l + "\n" + rest) == [l] + Split(rest)
  {
    var s := l + "\n" + rest;
    assert forall i :: 0 <= i < |l| ==> s[i] == l[i] && s[i] in l;
    assert s[|l|] == '\n';
    assert LineEnd(s) == |l|;
    assert s[..|l|] == l && s[|l| + 1..] == rest;
  }

  // Split undoes Unlines, up to the empty piece after the last newline.
  lemma {:induction false} SplitOfUnlines(lines: seq<string>)
    requires forall l :: l in lines ==> OneLine(l)
    ensures Split(Unlines(lines)) == lines + [""]
    decreases |lines|
  {
    if lines == [] {
      assert LineEnd("") == 0;
    } else {
      FirstLine(lines[0], Unlines(lines[1..]));
      SplitOfUnlines(lines[1..]);
      assert [lines[0]] + (lines[1..] + [""]) == lines + [""];
    }
  }

  lemma {:induction false} UnlinesAppends(a: seq<string>, b: seq<string>)
    ensures Unlines(a + b) == Unlines(a) + Unlines(b)
    decreases |a|
  {
    if a == [] {
      assert a + b == b;
    } else {
      UnlinesAppends(a[1..], b);
      assert (a + b)[1..] == a[1..] + b;
    }
  }

  // ------------------------------------------------------------- key=value

  function KeyEnd(s: string): (n: nat)
    ensures n <= |s|
    ensures forall i :: 0 <= i < n ==> s[i] != '='
    ensures n < |s| ==> s[n] == '='
  {
    if s == [] || s[0] == '=' then 0 else 1 + KeyEnd(s[1..])
  }

  // strings.Cut(s, "=")
  function Cut(s: string): Option<(string, string)> {
    var n := KeyEnd(s);
    if n == |s| then None else Some((s[..n], s[n + 1..]))
  }

  lemma CutOfPair(k: string, v: string)
    requires '=' !in k
    ensures Cut(k + "=" + v) == Some((k, v))
  {
    var s := k + "=" + v;
    assert s == k + ("=" + v);
    assert forall i :: 0 <= i < |k| ==> s[i] == k[i] && s[i] in k;
    assert s[|k|] == '=';
    assert KeyEnd(s) == |k|;
    assert s[..|k|] == k && s[|k| + 1..] == v;
  }

  // ----------------------------------------------------------------- ordering

  // Byte order of strings.
  predicate Below(a: string, b: string) {
    if b == [] then false else if a == [] then true
    else a[0] < b[0] || (a[0] == b[0] && Below(a[1..], b[1..]))
  }

  lemma {:induction false} BelowTotal(a: string, b: string)
    ensures Below(a, b) || Below(b, a) || a == b
    ensures !(Below(a, b) && Below(b, a)) && !Below(a, a)
  {
    if a != [] && b != [] {
      BelowTotal(a[1..], b[1..]);
      BelowTotal(a[1..], a[1..]);
      if a[0] == b[0] && a[1..] == b[1..] {
        assert a == [a[0]] + a[1..] && b == [b[0]] + b[1..];
      }
    } else if a != [] {
      BelowTotal(a[1..], a[1..]);
    }
  }

  lemma {:induction false} BelowTransitive(a: string, b: string, c: string)
    requires Below(a, b) && Below(b, c)
    ensures Below(a, c)
  {
    if a != [] && b != [] && c != [] && a[0] == b[0] && b[0] == c[0] {
      BelowTransitive(a[1..], b[1..], c[1..]);
    }
  }
}
