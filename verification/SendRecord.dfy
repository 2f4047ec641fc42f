/**
  The durable record of a keyed send: the exact bytes that are compared when a
  request key is used again.
*/
module SendRecord {
  datatype SendArgs = SendArgs(from: string, to: string, subject: string, ttl: string,
                               replyTo: string, later: string, body: string)

  // The text headers in fixed order, a blank line, then the exact body.
  function Canonical(a: SendArgs): string {
    "Khala-Request: 1\nFrom: " + (a.from + "\n" +
    ("To: " + (a.to + "\n" +
    ("Subject: " + (a.subject + "\n" +
    ("TTL: " + (a.ttl + "\n" +
    ("In-Reply-To: " + (a.replyTo + "\n" +
    ("Later: " + (a.later + "\n" +
    ("\n" + a.body))))))))))))
  }

  // The first revision's form: NUL-terminated fields, then the body.
  function Legacy(a: SendArgs): string {
    "request-v1\0" + (a.from + "\0" + (a.to + "\0" + (a.subject + "\0" + (a.ttl + "\0" +
    (a.replyTo + "\0" + (a.later + "\0" + a.body))))))
  }

  // What `khala send` has checked of its header values: one line each, and no NUL.
  predicate Sound(a: SendArgs) {
    Line(a.from) && Line(a.to) && Line(a.subject) && Line(a.ttl) && Line(a.replyTo) && Line(a.later)
  }

  predicate Line(s: string) {
    '\n' !in s && '\0' !in s
  }

  // A stored record matches a new call when it holds the same bytes in either form.
  predicate Matches(stored: string, a: SendArgs) {
    stored == Canonical(a) || stored == Legacy(a)
  }

  // A terminated field can be split off in one way only.
  lemma {:induction false} FieldSplit(x: string, y: string, end: char, r: string, s: string)
    requires end !in x && end !in y && x + [end] + r == y + [end] + s
    ensures x == y && r == s
  {
    var whole := x + [end] + r;
    assert whole == y + [end] + s;
    assert whole[|x|] == end && whole[|y|] == end;
    assert forall i :: 0 <= i < |x| ==> whole[i] == x[i];
    assert forall i :: 0 <= i < |y| ==> whole[i] == y[i];
    assert |x| == |y|;
    assert x == whole[..|x|] == y;
    assert r == whole[|x| + 1..] == s;
  }

  lemma PrefixSplit(p: string, r: string, s: string)
    requires p + r == p + s
    ensures r == s
  {
    assert r == (p + r)[|p|..] == s;
  }

  // The bytes determine the whole call, body included.
  lemma CanonicalInjective(a: SendArgs, b: SendArgs)
    requires Sound(a) && Sound(b) && Canonical(a) == Canonical(b)
    ensures a == b
  {
    var a6, b6 := "\n" + a.body, "\n" + b.body;
    var a5, b5 := a.later + "\n" + a6, b.later + "\n" + b6;
    var a4, b4 := a.replyTo + "\n" + ("Later: " + a5), b.replyTo + "\n" + ("Later: " + b5);
    var a3, b3 := a.ttl + "\n" + ("In-Reply-To: " + a4), b.ttl + "\n" + ("In-Reply-To: " + b4);
    var a2, b2 := a.subject + "\n" + ("TTL: " + a3), b.subject + "\n" + ("TTL: " + b3);
    var a1, b1 := a.to + "\n" + ("Subject: " + a2), b.to + "\n" + ("Subject: " + b2);
    var a0, b0 := a.from + "\n" + ("To: " + a1), b.from + "\n" + ("To: " + b1);
    PrefixSplit("Khala-Request: 1\nFrom: ", a0, b0);
    FieldSplit(a.from, b.from, '\n', "To: " + a1, "To: " + b1);
    PrefixSplit("To: ", a1, b1);
    FieldSplit(a.to, b.to, '\n', "Subject: " + a2, "Subject: " + b2);
    PrefixSplit("Subject: ", a2, b2);
    FieldSplit(a.subject, b.subject, '\n', "TTL: " + a3, "TTL: " + b3);
    PrefixSplit("TTL: ", a3, b3);
    FieldSplit(a.ttl, b.ttl, '\n', "In-Reply-To: " + a4, "In-Reply-To: " + b4);
    PrefixSplit("In-Reply-To: ", a4, b4);
    FieldSplit(a.replyTo, b.replyTo, '\n', "Later: " + a5, "Later: " + b5);
    PrefixSplit("Later: ", a5, b5);
    FieldSplit(a.later, b.later, '\n', a6, b6);
    PrefixSplit("\n", a.body, b.body);
  }

  lemma LegacyInjective(a: SendArgs, b: SendArgs)
    requires Sound(a) && Sound(b) && Legacy(a) == Legacy(b)
    ensures a == b
  {
    var a5, b5 := a.later + "\0" + a.body, b.later + "\0" + b.body;
    var a4, b4 := a.replyTo + "\0" + a5, b.replyTo + "\0" + b5;
    var a3, b3 := a.ttl + "\0" + a4, b.ttl + "\0" + b4;
    var a2, b2 := a.subject + "\0" + a3, b.subject + "\0" + b3;
    var a1, b1 := a.to + "\0" + a2, b.to + "\0" + b2;
    PrefixSplit("request-v1\0", a.from + "\0" + a1, b.from + "\0" + b1);
    FieldSplit(a.from, b.from, '\0', a1, b1);
    FieldSplit(a.to, b.to, '\0', a2, b2);
    FieldSplit(a.subject, b.subject, '\0', a3, b3);
    FieldSplit(a.ttl, b.ttl, '\0', a4, b4);
    FieldSplit(a.replyTo, b.replyTo, '\0', a5, b5);
    FieldSplit(a.later, b.later, '\0', a.body, b.body);
  }

  // A retry is recognised exactly when it repeats the original call, whichever
  // form the record is kept in.
  lemma MatchesExactly(stored: SendArgs, legacy: bool, a: SendArgs)
    requires Sound(stored) && Sound(a)
    ensures Matches(if legacy then Legacy(stored) else Canonical(stored), a) <==> stored == a
  {
    assert Canonical(stored)[0] == 'K' && Legacy(stored)[0] == 'r' && Canonical(a)[0] == 'K' && Legacy(a)[0] == 'r';
    if legacy && Legacy(stored) == Legacy(a) {
      LegacyInjective(stored, a);
    }
    if !legacy && Canonical(stored) == Canonical(a) {
      CanonicalInjective(stored, a);
    }
  }
}
