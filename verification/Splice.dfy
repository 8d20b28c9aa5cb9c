/** Keeping the primer block of a text in step with its source (scripts/sync_agents_primer.py). */
module Splice {

  /** The markers that open and close a block. */
  datatype Marks = Marks(start: string, end: string)

  const PRIMER := Marks("<!-- vaner-primer:start", "<!-- vaner-primer:end -->")

  datatype Result = Missing | Text(text: string)

  // ---------- Searching ----------

  predicate At(s: string, p: string, i: int) { 0 <= i <= |s| - |p| && s[i..i + |p|] == p }

  /** The first occurrence of p in s from position i on, or -1. */
  function FindFrom(s: string, p: string, i: nat): (r: int)
    requires i <= |s|
    ensures r == -1 || (i <= r && At(s, p, r))
    ensures forall j :: i <= j && (r == -1 || j < r) ==> !At(s, p, j)
    decreases |s| - i
  {
    if At(s, p, i) then i else if i == |s| then -1 else FindFrom(s, p, i + 1)
  }

  function Find(s: string, p: string): (r: int)
    ensures r == -1 || (At(s, p, r) && 0 <= r <= |s| - |p|)
    ensures forall j :: 0 <= j && (r == -1 || j < r) ==> !At(s, p, j)
  {
    FindFrom(s, p, 0)
  }

  // ---------- The block ----------

  function Digits(n: nat): (d: string)
    ensures forall c :: c in d ==> '0' <= c <= '9'
  {
    var d := ['0' + (n % 10) as char];
    if n < 10 then d else Digits(n / 10) + d
  }

  function Decimal(n: int): (d: string)
    ensures forall c :: c in d ==> '0' <= c <= '9' || c == '-'
  {
    if n < 0 then "-" + Digits(-n) else Digits(n)
  }

  function Heading(version: int): string { " v=" + Decimal(version) + " -->\n# Using Vaner\n\n" }

  function Render(m: Marks, heading: string, body: string): string { m.start + heading + body + "\n" + m.end }

  function Block(m: Marks, body: string, version: int): string { Render(m, Heading(version), body) }

  function Spliced(m: Marks, original: string, replacement: string): Result {
    var start, end := Find(original, m.start), Find(original, m.end);
    if start < 0 || end < 0 then Missing
    else Text(original[..start] + replacement + original[end + |m.end|..])
  }

  datatype Exit = Passed | Failed | Stopped

  /** One run of the script on the text of the file: its exit status and the text it leaves. */
  function Sync(m: Marks, original: string, body: string, version: int, check: bool): (Exit, string) {
    match Spliced(m, original, Block(m, body, version))
    case Missing => (Stopped, original)
    case Text(t) =>
      if t == original then (Passed, original)
      else if check then (Failed, original)
      else (Passed, t)
  }

  // ---------- What is written ----------

  /** A decimal numeral read as a number. */
  function Read(d: string): int {
    if d == "" then 0 else 10 * Read(d[..|d| - 1]) + d[|d| - 1] as int - '0' as int
  }

  lemma ReadOneMore(d: string, c: char)
    ensures Read(d + [c]) == 10 * Read(d) + c as int - '0' as int
  {
    assert (d + [c])[..|d|] == d;
  }

  lemma DigitChar(n: nat)
    ensures ('0' + (n % 10) as char) as int == '0' as int + n % 10
  {
  }

  lemma {:induction false} DigitsRead(n: nat)
    ensures Digits(n) != "" && Read(Digits(n)) == n
  {
    var c := '0' + (n % 10) as char;
    DigitChar(n);
    if n < 10 {
      ReadOneMore("", c);
      assert Digits(n) == "" + [c];
    } else {
      DigitsRead(n / 10);
      ReadOneMore(Digits(n / 10), c);
    }
  }

  lemma {:induction false} NoLeadingZero(n: nat)
    ensures Digits(n) != "" && (Digits(n)[0] == '0' ==> n == 0)
  {
    DigitChar(n);
    if n >= 10 { NoLeadingZero(n / 10); }
  }

  /** The opening line names the version in plain decimal. */
  lemma BlockTells(m: Marks, body: string, version: nat, d: string)
    requires d == Decimal(version)
    ensures (forall c :: c in d ==> '0' <= c <= '9') && d != "" && Read(d) == version && (d[0] == '0' ==> version == 0)
    ensures Block(m, body, version) == m.start + (" v=" + d + " -->\n# Using Vaner\n\n") + body + "\n" + m.end
  {
    DigitsRead(version);
    NoLeadingZero(version);
  }

  /** A run stops, and leaves the file, exactly when a marker is missing; otherwise a plain run passes with the block
      spliced in, and a check leaves the file. */
  lemma SyncTells(m: Marks, original: string, body: string, version: int, check: bool)
    ensures var (exit, text) := Sync(m, original, body, version, check);
            var missing := (forall i :: !At(original, m.start, i)) || (forall i :: !At(original, m.end, i));
            && (exit == Stopped <==> missing)
            && (missing || check ==> text == original)
            && (!missing && !check ==> exit == Passed && Spliced(m, original, Block(m, body, version)) == Text(text))
  {
  }

  // ---------- Markers do not overlap ----------

  /** The first character of p occurs nowhere else in p. */
  ghost predicate Solo(p: string) { p != "" && forall i :: 0 < i < |p| ==> p[i] != p[0] }

  /** Both markers open with '<' and hold no other, the end marker is of one line, and they soon differ. */
  ghost predicate Proper(m: Marks) {
    && Solo(m.start) && Solo(m.end) && m.start[0] == m.end[0] == '<'
    && (forall i :: 0 <= i < |m.end| ==> m.end[i] != '\n')
    && |m.start| > 18 && |m.end| > 18 && m.start[18] != m.end[18]
  }

  lemma PrimerProper()
    ensures Proper(PRIMER)
  {
  }

  lemma CharsAt(s: string, p: string, i: int)
    requires At(s, p, i)
    ensures forall n :: i <= n < i + |p| ==> s[n] == p[n - i]
  {
    assert forall n :: i <= n < i + |p| ==> s[n] == s[i..i + |p|][n - i];
  }

  /** Two markers in one text stand clear of each other. */
  lemma Apart(m: Marks, s: string, i: int, j: int)
    requires Proper(m)
    requires At(s, m.start, i) && At(s, m.end, j)
    ensures i + |m.start| <= j || j + |m.end| <= i
  {
    CharsAt(s, m.start, i);
    CharsAt(s, m.end, j);
    assert s[i] == s[j] == '<';
    assert s[i + 18] == m.start[18];
  }

  lemma FirstIs(s: string, p: string, i: int)
    requires At(s, p, i) && forall j :: 0 <= j < i ==> !At(s, p, j)
    ensures Find(s, p) == i
  {
  }

  /** Where nothing starts in a, the first occurrence is that of b. */
  lemma FindAfter(a: string, b: string, p: string)
    requires forall i :: 0 <= i < |a| ==> !At(a + b, p, i)
    ensures Find(a + b, p) == if Find(b, p) < 0 then -1 else |a| + Find(b, p)
  {
    assert forall i :: 0 <= i ==> (At(a + b, p, |a| + i) <==> At(b, p, i));
    var r := Find(a + b, p);
    if r >= 0 {
      assert At(b, p, r - |a|);
    }
  }

  lemma FindBefore(a: string, b: string, p: string)
    requires Find(a, p) >= 0
    ensures Find(a + b, p) == Find(a, p)
  {
    var r := Find(a, p);
    assert forall i :: i <= r ==> (At(a + b, p, i) <==> At(a, p, i));
    FirstIs(a + b, p, r);
  }

  /** A marker cannot start in a and end in a text that starts as it does. */
  lemma NoStraddle(a: string, b: string, p: string, i: int)
    requires Solo(p) && b != "" && b[0] == p[0] && 0 <= i < |a| && At(a + b, p, i)
    ensures At(a, p, i)
  {
    CharsAt(a + b, p, i);
    assert (a + b)[|a|] == b[0];
  }

  lemma FindPast(a: string, b: string, p: string)
    requires Solo(p) && b != "" && b[0] == p[0] && Find(a, p) < 0
    ensures Find(a + b, p) == if Find(b, p) < 0 then -1 else |a| + Find(b, p)
  {
    forall i | 0 <= i < |a| ensures !At(a + b, p, i) {
      if At(a + b, p, i) {
        NoStraddle(a, b, p, i);
      }
    }
    FindAfter(a, b, p);
  }

  // ---------- Where the markers of a block are ----------

  /** No marker starts in a heading. */
  predicate Plain(heading: string) { forall k :: 0 <= k < |heading| ==> heading[k] != '<' }

  lemma HeadingPlain(version: int)
    ensures Plain(Heading(version))
  {
    assert forall k :: 0 <= k < |Heading(version)| ==> Heading(version)[k] in Heading(version);
    assert forall c :: c in " v=" ==> c != '<';
    assert forall c :: c in " -->\n# Using Vaner\n\n" ==> c != '<';
  }

  lemma EndAfterBody(m: Marks, body: string, rest: string)
    requires Proper(m)
    ensures Find(body + ("\n" + m.end + rest), m.end) == if Find(body, m.end) < 0 then |body| + 1 else Find(body, m.end)
  {
    var tail := "\n" + m.end + rest;
    assert (body + tail)[|body|] == '\n';
    forall i | 0 <= i <= |body| && At(body + tail, m.end, i)
      ensures At(body, m.end, i)
    {
      CharsAt(body + tail, m.end, i);
    }
    if Find(body, m.end) < 0 {
      assert (body + tail)[|body| + 1..|body| + 1 + |m.end|] == m.end;
      FirstIs(body + tail, m.end, |body| + 1);
    } else {
      FindBefore(body, tail, m.end);
    }
  }

  lemma BlockMarkers(m: Marks, heading: string, body: string, rest: string)
    requires Proper(m)
    requires Plain(heading)
    ensures Find(Render(m, heading, body) + rest, m.start) == 0
    ensures Find(Render(m, heading, body) + rest, m.end)
         == if Find(body, m.end) < 0 then |Render(m, heading, body)| - |m.end|
            else |m.start + heading| + Find(body, m.end)
  {
    var h, text := m.start + heading, Render(m, heading, body) + rest;
    assert text[0..|m.start|] == m.start;
    var tail := body + ("\n" + m.end + rest);
    assert text == h + tail;
    assert forall i :: 0 <= i < |h| ==> !At(h + tail, m.end, i);
    FindAfter(h, tail, m.end);
    EndAfterBody(m, body, rest);
  }

  // ---------- Splicing twice ----------

  /** The file the splice is meant for: its first end marker follows its first start marker, and the new body
      does not itself hold an end marker. */
  predicate WellMarked(m: Marks, original: string, body: string) {
    Find(original, m.start) < Find(original, m.end) && Find(body, m.end) < 0
  }

  /** The part before the start marker has no start marker, and an end marker only if the whole text has it there. */
  lemma BeforeStart(m: Marks, o: string)
    requires Proper(m) && Find(o, m.start) >= 0 && Find(o, m.end) >= 0
    ensures Find(o[..Find(o, m.start)], m.start) < 0
    ensures Find(o[..Find(o, m.start)], m.end) == if Find(o, m.end) < Find(o, m.start) then Find(o, m.end) else -1
  {
    var start, end := Find(o, m.start), Find(o, m.end);
    Apart(m, o, start, end);
    var before := o[..start];
    assert o == before + o[start..];
    assert forall i :: At(before, m.start, i) ==> At(o, m.start, i);
    assert forall i :: At(before, m.end, i) ==> At(o, m.end, i);
    if end < start {
      FirstIs(before, m.end, end);
    }
  }

  /** Where the markers of a spliced text are. */
  lemma SplicedMarkers(m: Marks, before: string, heading: string, body: string, after: string)
    requires Proper(m) && Plain(heading) && Find(before, m.start) < 0
    ensures var block := Render(m, heading, body);
            var t := before + block + after;
            && Find(t, m.start) == |before|
            && Find(t, m.end) == if Find(before, m.end) >= 0 then Find(before, m.end)
                                 else if Find(body, m.end) < 0 then |before| + |block| - |m.end|
                                 else |before| + |m.start + heading| + Find(body, m.end)
  {
    var block := Render(m, heading, body);
    BlockMarkers(m, heading, body, after);
    assert before + block + after == before + (block + after);
    assert (block + after)[0] == '<';
    FindPast(before, block + after, m.start);
    if Find(before, m.end) >= 0 {
      FindBefore(before, block + after, m.end);
    } else {
      FindPast(before, block + after, m.end);
    }
  }

  /** A second splice cuts the first one's text at its markers. */
  lemma Recut(m: Marks, before: string, block: string, after: string, end: int)
    requires var t := before + block + after; Find(t, m.start) == |before| && Find(t, m.end) == end && end >= 0
    ensures var t := before + block + after;
            && Spliced(m, t, block).Text?
            && |Spliced(m, t, block).text| == |before| + |block| + |t| - end - |m.end|
            && (end + |m.end| == |before| + |block| ==> Spliced(m, t, block).text == t)
  {
    var t := before + block + after;
    assert t[..|before|] == before;
    if end + |m.end| == |before| + |block| {
      assert t[end + |m.end|..] == after;
    }
  }

  /** In a spliced text the first end marker is never past that of the block, and is that one exactly when none
      comes before the block or in its body. */
  lemma {:induction false} EndPlace(m: Marks, before: string, heading: string, body: string, after: string, t: string)
    requires Proper(m) && Plain(heading) && Find(before, m.start) < 0
    requires t == before + Render(m, heading, body) + after
    ensures Find(t, m.start) == |before|
    ensures 0 <= Find(t, m.end) <= |before| + |Render(m, heading, body)| - |m.end|
    ensures Find(t, m.end) == |before| + |Render(m, heading, body)| - |m.end| <==> Find(before, m.end) < 0 && Find(body, m.end) < 0
  {
    SplicedMarkers(m, before, heading, body, after);
  }

  /** Splicing the same block twice is splicing it once exactly for well-marked texts; on any other the second
      splice makes the text grow. */
  lemma {:induction false} SpliceTwiceIff(m: Marks, o: string, body: string, version: int, block: string, t: string)
    requires Proper(m) && block == Block(m, body, version) && Spliced(m, o, block) == Text(t)
    ensures Spliced(m, t, block).Text?
    ensures Spliced(m, t, block).text == t <==> WellMarked(m, o, body)
    ensures !WellMarked(m, o, body) ==> |Spliced(m, t, block).text| > |t|
  {
    var start, end := Find(o, m.start), Find(o, m.end);
    var before, after := o[..start], o[end + |m.end|..];
    Apart(m, o, start, end);
    BeforeStart(m, o);
    HeadingPlain(version);
    EndPlace(m, before, Heading(version), body, after, t);
    Recut(m, before, block, after, Find(t, m.end));
  }

  /** A splice replaces the block and keeps the text around it: wherever a block opens with the first start marker
      and closes with the first end marker. */
  lemma OutsideUnchanged(m: Marks, before: string, block: string, after: string, replacement: string)
    requires Proper(m) && Find(before, m.start) < 0 && Find(before, m.end) < 0
    requires At(block, m.start, 0) && 0 <= Find(block, m.end) == |block| - |m.end|
    ensures Spliced(m, before + block + after, replacement) == Text(before + replacement + after)
  {
    PlacedMarkers(m, before, block, after);
  }

  lemma PlacedMarkers(m: Marks, before: string, block: string, after: string)
    requires Proper(m) && Find(before, m.start) < 0 && Find(before, m.end) < 0
    requires At(block, m.start, 0) && 0 <= Find(block, m.end) == |block| - |m.end|
    ensures Find(before + block + after, m.start) == |before|
    ensures Find(before + block + after, m.end) == |before| + |block| - |m.end|
  {
    var rest := block + after;
    assert before + block + after == before + rest;
    CharsAt(block, m.start, 0);
    assert rest[0] == block[0] == '<';
    FirstIs(rest, m.start, 0);
    FindPast(before, rest, m.start);
    FindBefore(block, after, m.end);
    FindPast(before, rest, m.end);
  }

  // ---------- The check ----------

  /** The text holds the block, with no marker before it. */
  ghost predicate InStep(m: Marks, o: string, block: string) {
    exists before, after :: o == before + block + after && Find(before, m.start) < 0 && Find(before, m.end) < 0
  }

  /** --check passes exactly on the texts that hold the rendered block with no marker before it, provided the body
      holds no end marker; with one it never passes. */
  lemma CheckPassesIff(m: Marks, o: string, body: string, version: int)
    requires Proper(m)
    ensures Sync(m, o, body, version, true).0 == Passed <==> Find(body, m.end) < 0 && InStep(m, o, Block(m, body, version))
  {
    var block := Block(m, body, version);
    if Spliced(m, o, block) == Text(o) {
      SpliceTwiceIff(m, o, body, version, block, o);
      BeforeStart(m, o);
      assert o == o[..Find(o, m.start)] + block + o[Find(o, m.end) + |m.end|..];
    }
    if InStep(m, o, block) && Find(body, m.end) < 0 {
      var before, after :| o == before + block + after && Find(before, m.start) < 0 && Find(before, m.end) < 0;
      HeadingPlain(version);
      HeldBlock(m, before, Heading(version), body, after);
    }
  }

  lemma HeldBlock(m: Marks, before: string, heading: string, body: string, after: string)
    requires Proper(m) && Plain(heading)
    requires Find(before, m.start) < 0 && Find(before, m.end) < 0 && Find(body, m.end) < 0
    ensures var o := before + Render(m, heading, body) + after; Spliced(m, o, Render(m, heading, body)) == Text(o)
  {
    var block := Render(m, heading, body);
    BlockMarkers(m, heading, body, "");
    assert block + "" == block;
    OutsideUnchanged(m, before, block, after, block);
  }

  /** Syncing makes --check pass exactly when the text was well marked; the check itself never writes, and a
      second sync then leaves the text alone. */
  lemma {:induction false} SyncThenCheckIff(m: Marks, o: string, body: string, version: int)
    requires Proper(m)
    requires Sync(m, o, body, version, false).0 == Passed
    ensures var t := Sync(m, o, body, version, false).1;
            && (Sync(m, t, body, version, true) == (Passed, t) <==> WellMarked(m, o, body))
            && (Sync(m, t, body, version, false) == (Passed, t) <==> WellMarked(m, o, body))
    ensures Sync(m, o, body, version, true).1 == o
  {
    SpliceTwiceIff(m, o, body, version, Block(m, body, version), Sync(m, o, body, version, false).1);
  }
}
