/** The incremental event-stream reader, one character at a time, against a printer and against the
    interpretation of event streams in sections 9.2.5 and 9.2.6 of the WHATWG HTML Living Standard.
    Bytes are characters; CR is an ordinary one. */
module Sse {
  import opened Common

  // ---------- Text ----------

  /** The characters Rust's `trim_start` removes. */
  predicate IsSpace(c: char) {
    || '\t' <= c <= '\r' || c == ' ' || c == '\U{0085}' || c == '\U{00A0}' || c == '\U{1680}'
    || '\U{2000}' <= c <= '\U{200A}' || c == '\U{2028}' || c == '\U{2029}' || c == '\U{202F}'
    || c == '\U{205F}' || c == '\U{3000}'
  }

  /** The 25 characters one by one. */
  lemma SpaceIff(c: char)
    ensures IsSpace(c) <==> c in "\t\n\U{b}\U{c}\r \U{85}\U{A0}\U{1680}\U{2000}\U{2001}\U{2002}\U{2003}\U{2004}\U{2005}"
                              || c in "\U{2006}\U{2007}\U{2008}\U{2009}\U{200A}\U{2028}\U{2029}\U{202F}\U{205F}\U{3000}"
  {
  }

  function TrimStart(s: string): (r: string)
    ensures |r| <= |s| && r == s[|s| - |r|..]
    ensures forall i :: 0 <= i < |s| - |r| ==> IsSpace(s[i])
    ensures r == "" || !IsSpace(r[0])
  {
    if s != "" && IsSpace(s[0]) then TrimStart(s[1..]) else s
  }

  predicate StartsWith(s: string, p: string) { |p| <= |s| && s[..|p|] == p }

  /** Lines of a text; there is always at least one. */
  function Lines(text: string): (r: seq<string>)
    ensures r != []
    ensures forall l :: l in r ==> '\n' !in l
  {
    if text == "" then [""]
    else
      var rest := Lines(text[1..]);
      if text[0] == '\n' then [""] + rest else [[text[0]] + rest[0]] + rest[1..]
  }

  function Join(lines: seq<string>): (r: string) {
    if lines == [] then ""
    else if |lines| == 1 then lines[0]
    else Join(lines[..|lines| - 1]) + "\n" + lines[|lines| - 1]
  }

  /** Every line ended by LF. */
  function Terminate(lines: seq<string>): (r: string) {
    if lines == [] then "" else Terminate(lines[..|lines| - 1]) + lines[|lines| - 1] + "\n"
  }

  // ---------- The reader's parser ----------

  /** `events` are the data buffers handed to the JSON decoder. */
  datatype Parser = Parser(line: string, data: string, events: seq<string>)

  const Start: Parser := Parser("", "", [])

  function Append(data: string, value: string): string {
    if data == "" then value else data + "\n" + value
  }

  function EndLine(p: Parser): Parser {
    if p.line == "" then
      Parser("", "", if p.data == "" then p.events else p.events + [p.data])
    else if StartsWith(p.line, "data:") then
      Parser("", Append(p.data, TrimStart(p.line[5..])), p.events)
    else Parser("", p.data, p.events)
  }

  function FeedByte(p: Parser, b: char): Parser {
    if b == '\n' then EndLine(p) else p.(line := p.line + [b])
  }

  function Feed(p: Parser, bytes: string): Parser {
    if bytes == "" then p else FeedByte(Feed(p, bytes[..|bytes| - 1]), bytes[|bytes| - 1])
  }

  /** Where the stream is cut into chunks does not matter. */
  lemma {:induction false} FeedConcat(p: Parser, a: string, b: string)
    ensures Feed(p, a + b) == Feed(Feed(p, a), b)
  {
    if b == "" {
      assert a + b == a;
    } else {
      assert (a + b)[..|a + b| - 1] == a + b[..|b| - 1];
      FeedConcat(p, a, b[..|b| - 1]);
    }
  }

  lemma {:induction false} FeedLine(p: Parser, l: string)
    requires '\n' !in l
    ensures Feed(p, l) == p.(line := p.line + l)
  {
    if l == "" {
      assert p.line + l == p.line;
    } else {
      FeedLine(p, l[..|l| - 1]);
      assert p.line + l == p.line + l[..|l| - 1] + [l[|l| - 1]];
    }
  }

  lemma FeedWholeLine(p: Parser, l: string)
    requires '\n' !in l && p.line == ""
    ensures Feed(p, l + "\n") == EndLine(p.(line := l))
  {
    FeedLine(p, l);
    assert (l + "\n")[..|l|] == l;
    assert "" + l == l;
  }

  // ---------- Events as blocks of data values ----------

  function IsData(l: string): bool { StartsWith(l, "data:") }

  /** The value of a data line: what follows the colon, less one leading space. */
  function Value(l: string): string
    requires IsData(l)
  {
    if |l| > 5 && l[5] == ' ' then l[6..] else l[5..]
  }

  /** One data line of an event: its value, or the bare word `data`, which the reader ignores and the
      standard takes for an empty value. */
  datatype Datum = Field(text: string) | Bare

  function Text(d: Datum): string { if d.Bare? then "" else d.text }

  function Texts(values: seq<Datum>): (r: seq<string>)
    ensures |r| == |values|
  {
    seq(|values|, i requires 0 <= i < |values| => Text(values[i]))
  }

  datatype Blocks = Blocks(done: seq<seq<Datum>>, open: seq<Datum>)

  function GroupLine(b: Blocks, l: string): Blocks {
    if l == "" then Blocks(b.done + [b.open], [])
    else if IsData(l) then b.(open := b.open + [Field(Value(l))])
    else if l == "data" then b.(open := b.open + [Bare])
    else b
  }

  /** The data values of each finished event, and those of the unfinished one. */
  function Group(lines: seq<string>): Blocks {
    if lines == [] then Blocks([], []) else GroupLine(Group(lines[..|lines| - 1]), lines[|lines| - 1])
  }

  lemma GroupOneMore(lines: seq<string>, l: string)
    ensures Group(lines + [l]) == GroupLine(Group(lines), l)
  {
    assert (lines + [l])[..|lines|] == lines;
  }

  /** What the reader makes of an event's values: each trimmed, leading empty ones swallowed. */
  function Squeeze(values: seq<Datum>): string {
    if values == [] then ""
    else if values[|values| - 1].Bare? then Squeeze(values[..|values| - 1])
    else Append(Squeeze(values[..|values| - 1]), TrimStart(values[|values| - 1].text))
  }

  /** The trimmed values of the data lines, the bare ones left out. */
  function Trims(values: seq<Datum>): seq<string> {
    if values == [] then []
    else
      var v := values[|values| - 1];
      Trims(values[..|values| - 1]) + if v.Bare? then [] else [TrimStart(v.text)]
  }

  function ReaderEvent(values: seq<Datum>): seq<string> {
    if Squeeze(values) == "" then [] else [Squeeze(values)]
  }

  /** The lines from the first that is not empty on. */
  function DropEmpty(lines: seq<string>): seq<string> {
    if lines != [] && lines[0] == "" then DropEmpty(lines[1..]) else lines
  }

  lemma {:induction false} DropOneMore(lines: seq<string>, l: string)
    ensures var left := DropEmpty(lines);
            DropEmpty(lines + [l]) == if left != [] then left + [l] else if l == "" then [] else [l]
    ensures DropEmpty(lines) != [] ==> DropEmpty(lines)[0] != ""
  {
    var all := lines + [l];
    if lines != [] && lines[0] == "" {
      DropOneMore(lines[1..], l);
      assert all[1..] == lines[1..] + [l];
    } else if lines == [] && l == "" {
      assert all[1..] == [];
    }
  }

  lemma {:induction false} JoinStarts(lines: seq<string>)
    requires lines != [] && lines[0] != ""
    ensures Join(lines) != ""
  {
    if |lines| > 1 { JoinStarts(lines[..|lines| - 1]); }
  }

  lemma AppendJoins(left: seq<string>, l: string)
    requires left != [] ==> left[0] != ""
    ensures Append(Join(left), l) == Join(if left != [] then left + [l] else if l == "" then [] else [l])
  {
    if left != [] {
      JoinStarts(left);
      assert (left + [l])[..|left|] == left;
    }
  }

  lemma TrimsOneMore(front: seq<Datum>, v: Datum)
    ensures Trims(front + [v]) == if v.Bare? then Trims(front) else Trims(front) + [TrimStart(v.text)]
    ensures Squeeze(front + [v]) == if v.Bare? then Squeeze(front) else Append(Squeeze(front), TrimStart(v.text))
  {
    assert (front + [v])[..|front|] == front;
  }

  /** An event is its trimmed values joined by LF from the first that is not empty on. */
  lemma {:induction false} SqueezeTells(values: seq<Datum>)
    ensures Squeeze(values) == Join(DropEmpty(Trims(values)))
  {
    if values != [] {
      var front, v := values[..|values| - 1], values[|values| - 1];
      assert values == front + [v];
      SqueezeTells(front);
      TrimsOneMore(front, v);
      if v.Field? {
        DropOneMore(Trims(front), TrimStart(v.text));
        AppendJoins(DropEmpty(Trims(front)), TrimStart(v.text));
      }
    }
  }

  /** The reader hands on nothing if and only if every value trims to nothing. */
  lemma EventTells(values: seq<Datum>)
    ensures var text := DropEmpty(Trims(values)); ReaderEvent(values) == if text == [] then [] else [Join(text)]
  {
    SqueezeTells(values);
    DropOneMore(Trims(values), "");
    if DropEmpty(Trims(values)) != [] { JoinStarts(DropEmpty(Trims(values))); }
  }

  function ReaderEvents(blocks: seq<seq<Datum>>): seq<string> {
    if blocks == [] then [] else ReaderEvents(blocks[..|blocks| - 1]) + ReaderEvent(blocks[|blocks| - 1])
  }

  function ReaderOn(b: Blocks): Parser { Parser("", Squeeze(b.open), ReaderEvents(b.done)) }

  lemma ReaderLine(b: Blocks, l: string)
    ensures EndLine(ReaderOn(b).(line := l)) == ReaderOn(GroupLine(b, l))
  {
    if l != "" && IsData(l) {
      assert (b.open + [Field(Value(l))])[..|b.open|] == b.open;
    } else if l == "data" {
      assert (b.open + [Bare])[..|b.open|] == b.open;
    } else if l == "" {
      assert (b.done + [b.open])[..|b.done|] == b.done;
    }
  }

  /** Whatever complete lines arrive, the reader hands on the squeezed events. */
  lemma {:induction false} ReaderReads(lines: seq<string>)
    requires forall l :: l in lines ==> '\n' !in l
    ensures Feed(Start, Terminate(lines)) == ReaderOn(Group(lines))
  {
    if lines != [] {
      var front, l := lines[..|lines| - 1], lines[|lines| - 1];
      ReaderReads(front);
      assert l in lines;
      assert Terminate(lines) == Terminate(front) + (l + "\n");
      FeedConcat(Start, Terminate(front), l + "\n");
      FeedWholeLine(ReaderOn(Group(front)), l);
      ReaderLine(Group(front), l);
    }
  }

  // ---------- The standard ----------

  /** The data buffer of section 9.2.6 and the data of the events dispatched. */
  datatype Standard = Standard(buffer: string, events: seq<string>)

  function ColonAt(l: string): (r: nat)
    ensures r <= |l|
    ensures r < |l| ==> l[r] == ':'
    ensures ':' !in l[..r]
  {
    if l == "" || l[0] == ':' then 0
    else
      var rest := ColonAt(l[1..]);
      assert l[..rest + 1] == [l[0]] + l[1..][..rest];
      rest + 1
  }

  function StripSpace(v: string): string { if v != "" && v[0] == ' ' then v[1..] else v }

  function FieldStep(s: Standard, name: string, value: string): Standard {
    if name == "data" then s.(buffer := s.buffer + value + "\n") else s
  }

  function StandardLine(s: Standard, l: string): Standard {
    if l == "" then
      if s.buffer == "" then s
      else if s.buffer[|s.buffer| - 1] == '\n' then Standard("", s.events + [s.buffer[..|s.buffer| - 1]])
      else Standard("", s.events + [s.buffer])
    else if l[0] == ':' then s
    else if ColonAt(l) < |l| then FieldStep(s, l[..ColonAt(l)], StripSpace(l[ColonAt(l) + 1..]))
    else FieldStep(s, l, "")
  }

  function Interpret(lines: seq<string>): Standard {
    if lines == [] then Standard("", []) else StandardLine(Interpret(lines[..|lines| - 1]), lines[|lines| - 1])
  }

  function StandardEvents(blocks: seq<seq<Datum>>): seq<string> {
    if blocks == [] then []
    else StandardEvents(blocks[..|blocks| - 1]) +
         if blocks[|blocks| - 1] == [] then [] else [Join(Texts(blocks[|blocks| - 1]))]
  }

  lemma {:induction false} DataField(l: string)
    requires l != ""
    ensures IsData(l) ==> l[0] != ':' && ColonAt(l) == 4 && StripSpace(l[5..]) == Value(l)
    ensures ColonAt(l) < |l| && l[..ColonAt(l)] == "data" ==> IsData(l)
  {
    var k := ColonAt(l);
    if IsData(l) {
      assert l[..5] == "data:";
      assert l[4] == l[..5][4] == ':';
      ColonBy(l, 4);
      assert forall i :: 0 <= i < 4 ==> l[i] == l[..5][i] != ':';
    }
    if k < |l| && l[..k] == "data" {
      assert l[..5] == l[..4] + [l[4]];
    }
  }

  lemma {:induction false} NoColon(l: string)
    requires ':' !in l
    ensures ColonAt(l) == |l|
  {
    if l != "" { NoColon(l[1..]); }
  }

  lemma {:induction false} ColonBy(l: string, i: nat)
    requires i < |l| && l[i] == ':'
    ensures ColonAt(l) <= i
  {
    if l[0] != ':' { ColonBy(l[1..], i - 1); }
  }

  /** Terminate as the standard's buffer: joined and ended by one LF. */
  lemma {:induction false} TerminateJoin(values: seq<string>)
    requires values != []
    ensures Terminate(values) == Join(values) + "\n"
  {
    if |values| == 1 {
      assert Terminate(values[..0]) == "";
      assert "" + values[0] + "\n" == values[0] + "\n";
    } else {
      TerminateJoin(values[..|values| - 1]);
    }
  }

  function StandardOn(b: Blocks): Standard { Standard(Terminate(Texts(b.open)), StandardEvents(b.done)) }

  lemma OpenOneMore(open: seq<Datum>, d: Datum)
    ensures Terminate(Texts(open + [d])) == Terminate(Texts(open)) + Text(d) + "\n"
  {
    assert Texts(open + [d])[..|open|] == Texts(open);
  }

  lemma StandardStep(b: Blocks, l: string)
    ensures StandardLine(StandardOn(b), l) == StandardOn(GroupLine(b, l))
  {
    if l == "" {
      if b.open != [] { TerminateJoin(Texts(b.open)); }
      assert (b.done + [b.open])[..|b.done|] == b.done;
    } else {
      DataField(l);
      if IsData(l) {
        assert l[..ColonAt(l)] == "data" by { assert l[..4] == l[..5][..4]; }
        OpenOneMore(b.open, Field(Value(l)));
      } else if l == "data" {
        NoColon(l);
        OpenOneMore(b.open, Bare);
      }
    }
  }

  /** The standard dispatches each block of data values joined by LF. */
  lemma {:induction false} StandardReads(lines: seq<string>)
    ensures Interpret(lines) == StandardOn(Group(lines))
  {
    if lines != [] {
      StandardReads(lines[..|lines| - 1]);
      StandardStep(Group(lines[..|lines| - 1]), lines[|lines| - 1]);
    }
  }

  // ---------- When the two agree ----------

  predicate Plain(d: Datum) { d.Field? && (d.text == "" || !IsSpace(d.text[0])) }

  /** No value is bare or starts with white space, and the first is not empty. */
  predicate Clean(values: seq<Datum>)
    requires values != []
  {
    Text(values[0]) != "" && forall i :: 0 <= i < |values| ==> Plain(values[i])
  }

  lemma CleanSplit(front: seq<Datum>, v: Datum)
    ensures front != [] ==> (Clean(front + [v]) <==> Clean(front) && Plain(v))
    ensures front == [] ==> (Clean(front + [v]) <==> Plain(v) && Text(v) != "")
  {
    var values := front + [v];
    assert values[|front|] == v;
    assert forall i :: 0 <= i < |front| ==> values[i] == front[i];
    if front != [] && Clean(values) {
      forall i | 0 <= i < |front| ensures Plain(front[i]) { assert Plain(values[i]); }
    }
  }

  lemma TextsOneMore(front: seq<Datum>, v: Datum)
    ensures Join(Texts(front + [v])) == if front == [] then Text(v) else Join(Texts(front)) + "\n" + Text(v)
  {
    assert Texts(front + [v])[..|front|] == Texts(front);
  }

  lemma {:induction false} SqueezeShrinks(values: seq<Datum>)
    requires values != []
    ensures |Squeeze(values)| <= |Join(Texts(values))|
    ensures Clean(values) ==> Squeeze(values) == Join(Texts(values)) != ""
    ensures !Clean(values) ==> Squeeze(values) == "" || |Squeeze(values)| < |Join(Texts(values))|
  {
    var front, v := values[..|values| - 1], values[|values| - 1];
    assert values == front + [v];
    CleanSplit(front, v);
    TrimsOneMore(front, v);
    TextsOneMore(front, v);
    if front != [] { SqueezeShrinks(front); }
  }

  /** An event's reading agrees with the standard's exactly when it carries no data or clean data. */
  lemma EventAgreesIff(values: seq<Datum>)
    ensures ReaderEvent(values) == (if values == [] then [] else [Join(Texts(values))]) <==>
            values == [] || Clean(values)
  {
    if values != [] { SqueezeShrinks(values); }
  }

  lemma {:induction false} EventsNoMore(blocks: seq<seq<Datum>>)
    ensures |ReaderEvents(blocks)| <= |StandardEvents(blocks)|
  {
    if blocks != [] {
      EventsNoMore(blocks[..|blocks| - 1]);
      EventAgreesIff(blocks[|blocks| - 1]);
    }
  }

  /** Every event's data is absent or clean. */
  predicate AllAgree(blocks: seq<seq<Datum>>) {
    blocks == [] ||
    var last := blocks[|blocks| - 1];
    AllAgree(blocks[..|blocks| - 1]) && (last == [] || Clean(last))
  }

  lemma {:induction false} EventsAgreeIff(blocks: seq<seq<Datum>>)
    ensures ReaderEvents(blocks) == StandardEvents(blocks) <==> AllAgree(blocks)
  {
    if blocks != [] {
      var front, last := blocks[..|blocks| - 1], blocks[|blocks| - 1];
      EventsAgreeIff(front);
      EventsNoMore(front);
      EventAgreesIff(last);
      LastSplits(ReaderEvents(front), StandardEvents(front), ReaderEvent(last),
                 if last == [] then [] else [Join(Texts(last))]);
    }
  }

  lemma LastSplits(a: seq<string>, b: seq<string>, x: seq<string>, y: seq<string>)
    requires |a| <= |b| && |x| <= |y| <= 1
    ensures a + x == b + y <==> a == b && x == y
  {
    if a + x == b + y {
      assert |a| + |x| == |b| + |y|;
      assert (a + x)[..|a|] == a && (b + y)[..|b|] == b;
      assert (a + x)[|a|..] == x && (b + y)[|b|..] == y;
    }
  }

  lemma LinesAgreeIff(lines: seq<string>)
    requires forall l :: l in lines ==> '\n' !in l
    ensures Feed(Start, Terminate(lines)).events == Interpret(lines).events <==> AllAgree(Group(lines).done)
  {
    ReaderReads(lines);
    StandardReads(lines);
    EventsAgreeIff(Group(lines).done);
  }

  /** The standard also ends lines at CR. */
  predicate NoCr(texts: seq<string>) { forall t :: t in texts ==> '\r' !in t }

  /** On every stream of complete lines without CR the reader dispatches what the standard dispatches if and only if
      every event's data is absent or clean. */
  lemma AgreesWithStandardIff(lines: seq<string>)
    requires NoCr(lines) && forall l :: l in lines ==> '\n' !in l
    ensures Feed(Start, Terminate(lines)).events == Interpret(lines).events <==> AllAgree(Group(lines).done)
  {
    LinesAgreeIff(lines);
  }

  /** Every line ended by CR and LF. */
  function TerminateCrLf(lines: seq<string>): (r: string) {
    if lines == [] then "" else TerminateCrLf(lines[..|lines| - 1]) + (lines[|lines| - 1] + "\r") + "\n"
  }

  /** On a stream whose lines end in CR LF, as the standard allows, the reader never finds a blank line and so
      dispatches nothing. */
  lemma {:induction false} CrLfReadsNothing(lines: seq<string>)
    requires forall l :: l in lines ==> '\n' !in l
    ensures Feed(Start, TerminateCrLf(lines)).events == [] && Feed(Start, TerminateCrLf(lines)).line == ""
  {
    if lines != [] {
      var front, l := lines[..|lines| - 1], lines[|lines| - 1];
      CrLfReadsNothing(front);
      assert l in lines;
      assert TerminateCrLf(lines) == TerminateCrLf(front) + ((l + "\r") + "\n");
      FeedConcat(Start, TerminateCrLf(front), (l + "\r") + "\n");
      FeedWholeLine(Feed(Start, TerminateCrLf(front)), l + "\r");
    }
  }

  // ---------- Printing ----------

  function PrintLines(lines: seq<string>): (r: seq<string>) {
    if lines == [] then [] else PrintLines(lines[..|lines| - 1]) + ["data: " + lines[|lines| - 1]]
  }

  /** A payload as LF-terminated data lines and a blank one. */
  function PrintedLines(payloads: seq<string>): (r: seq<string>) {
    if payloads == [] then []
    else PrintedLines(payloads[..|payloads| - 1]) + PrintLines(Lines(payloads[|payloads| - 1])) + [""]
  }

  function Print(payloads: seq<string>): string { Terminate(PrintedLines(payloads)) }

  function Fields(lines: seq<string>): (r: seq<Datum>)
    ensures |r| == |lines|
  {
    seq(|lines|, i requires 0 <= i < |lines| => Field(lines[i]))
  }

  /** The payload's first line is not empty and no line starts with white space. */
  predicate CleanPayload(p: string) {
    var lines := Lines(p);
    lines[0] != "" && forall i :: 0 <= i < |lines| ==> Unindented(lines[i])
  }

  predicate CleanPayloads(ps: seq<string>) {
    forall i :: 0 <= i < |ps| ==> CleanPayload(ps[i])
  }

  lemma CleanConcat(a: seq<string>, b: seq<string>)
    ensures CleanPayloads(a + b) <==> CleanPayloads(a) && CleanPayloads(b)
  {
    assert forall i :: 0 <= i < |a| ==> (a + b)[i] == a[i];
    assert forall i :: 0 <= i < |b| ==> (a + b)[|a| + i] == b[i];
    if CleanPayloads(a + b) {
      forall i | 0 <= i < |b| ensures CleanPayload(b[i]) { assert CleanPayload((a + b)[|a| + i]); }
    }
  }

  predicate Unindented(l: string) { l == "" || !IsSpace(l[0]) }

  lemma {:induction false} JoinFirst(a: string, rest: seq<string>)
    requires rest != []
    ensures Join([a] + rest) == a + "\n" + Join(rest)
  {
    if |rest| == 1 {
      assert ([a] + rest)[..1] == [a];
    } else {
      var front, last := rest[..|rest| - 1], rest[|rest| - 1];
      JoinFirst(a, front);
      assert ([a] + rest)[..|rest|] == [a] + front && ([a] + rest)[|rest|] == last;
      Associative(a + "\n", Join(front), "\n" + last);
      Associative(Join(front), "\n", last);
      Associative(a + "\n" + Join(front), "\n", last);
    }
  }

  lemma {:induction false} JoinPrepend(c: char, lines: seq<string>)
    requires lines != []
    ensures Join([[c] + lines[0]] + lines[1..]) == [c] + Join(lines)
  {
    if |lines| > 1 {
      JoinFirst([c] + lines[0], lines[1..]);
      JoinFirst(lines[0], lines[1..]);
      assert [lines[0]] + lines[1..] == lines;
    }
  }

  lemma {:induction false} JoinLines(p: string)
    ensures Join(Lines(p)) == p
  {
    if p != "" {
      JoinLines(p[1..]);
      if p[0] == '\n' { JoinFirst("", Lines(p[1..])); } else { JoinPrepend(p[0], Lines(p[1..])); }
    }
  }

  lemma {:induction false} GroupConcat(a: seq<string>, data: seq<string>)
    ensures Group(a + PrintLines(data)) == Blocks(Group(a).done, Group(a).open + Fields(data))
  {
    if data == [] {
      assert a + PrintLines(data) == a;
    } else {
      var front, l := data[..|data| - 1], data[|data| - 1];
      GroupConcat(a, front);
      Associative(a, PrintLines(front), ["data: " + l]);
      GroupOneMore(a + PrintLines(front), "data: " + l);
      assert data == front + [l];
      Associative(Group(a).open, Fields(front), [Field(l)]);
    }
  }

  function FieldsOfAll(payloads: seq<string>): (r: seq<seq<Datum>>)
    ensures |r| == |payloads|
  {
    if payloads == [] then []
    else FieldsOfAll(payloads[..|payloads| - 1]) + [Fields(Lines(payloads[|payloads| - 1]))]
  }

  lemma {:induction false} GroupPrinted(payloads: seq<string>)
    ensures Group(PrintedLines(payloads)) == Blocks(FieldsOfAll(payloads), [])
  {
    if payloads != [] {
      var front, p := payloads[..|payloads| - 1], payloads[|payloads| - 1];
      GroupPrinted(front);
      GroupConcat(PrintedLines(front), Lines(p));
      GroupOneMore(PrintedLines(front) + PrintLines(Lines(p)), "");
      assert [] + Fields(Lines(p)) == Fields(Lines(p));
    }
  }

  lemma {:induction false} PrintedWholeLines(payloads: seq<string>)
    ensures forall l :: l in PrintedLines(payloads) ==> '\n' !in l
  {
    if payloads != [] {
      PrintedWholeLines(payloads[..|payloads| - 1]);
      DataWholeLines(Lines(payloads[|payloads| - 1]));
    }
  }

  lemma {:induction false} DataWholeLines(lines: seq<string>)
    requires forall l :: l in lines ==> '\n' !in l
    ensures forall l :: l in PrintLines(lines) ==> '\n' !in l
  {
    if lines != [] {
      DataWholeLines(lines[..|lines| - 1]);
      assert lines[|lines| - 1] in lines;
    }
  }

  lemma FieldsClean(p: string)
    ensures Texts(Fields(Lines(p))) == Lines(p)
    ensures Clean(Fields(Lines(p))) <==> CleanPayload(p)
  {
    var lines := Lines(p);
    assert forall i :: 0 <= i < |lines| ==> (Plain(Fields(lines)[i]) <==> Unindented(lines[i]));
  }

  lemma PrintedOneMore(front: seq<string>, p: string)
    ensures FieldsOfAll(front + [p]) == FieldsOfAll(front) + [Fields(Lines(p))]
  {
    assert (front + [p])[..|front|] == front;
  }

  lemma StandardOneMore(blocks: seq<seq<Datum>>, b: seq<Datum>)
    ensures StandardEvents(blocks + [b]) == StandardEvents(blocks) + if b == [] then [] else [Join(Texts(b))]
  {
    assert (blocks + [b])[..|blocks|] == blocks;
  }

  /** The standard reads every printed list back, whatever the payloads. */
  lemma {:induction false} StandardEventsPrinted(payloads: seq<string>)
    ensures StandardEvents(FieldsOfAll(payloads)) == payloads
  {
    if payloads != [] {
      var front, p := payloads[..|payloads| - 1], payloads[|payloads| - 1];
      assert payloads == front + [p];
      StandardEventsPrinted(front);
      PrintedOneMore(front, p);
      StandardOneMore(FieldsOfAll(front), Fields(Lines(p)));
      FieldsClean(p);
      JoinLines(p);
    }
  }

  lemma {:induction false} AllClean(payloads: seq<string>)
    ensures AllAgree(FieldsOfAll(payloads)) <==> CleanPayloads(payloads)
  {
    if payloads != [] {
      var front, p := payloads[..|payloads| - 1], payloads[|payloads| - 1];
      AllClean(front);
      FieldsClean(p);
      CleanConcat(front, [p]);
      assert front + [p] == payloads;
      assert CleanPayloads([p]) <==> CleanPayload([p][0]);
    }
  }

  function Flat(chunks: seq<string>): string {
    if chunks == [] then "" else Flat(chunks[..|chunks| - 1]) + chunks[|chunks| - 1]
  }

  /** The chunks one after the other. */
  function FeedAll(p: Parser, chunks: seq<string>): Parser {
    if chunks == [] then p else Feed(FeedAll(p, chunks[..|chunks| - 1]), chunks[|chunks| - 1])
  }

  /** However a stream is cut, the parser ends up the same. */
  lemma {:induction false} FeedAllIsFeed(p: Parser, chunks: seq<string>)
    ensures FeedAll(p, chunks) == Feed(p, Flat(chunks))
  {
    if chunks != [] {
      FeedAllIsFeed(p, chunks[..|chunks| - 1]);
      FeedConcat(p, Flat(chunks[..|chunks| - 1]), chunks[|chunks| - 1]);
    }
  }

  /** Round trip: printing payloads and feeding the text, cut into any chunks, gives back exactly those payloads if and
      only if each has a non-empty first line and no line that starts with white space; the standard's own
      interpretation always gives payloads without CR back. */
  lemma {:induction false} RoundTripIff(payloads: seq<string>, chunks: seq<string>)
    requires Flat(chunks) == Print(payloads)
    ensures NoCr(payloads) ==> Interpret(PrintedLines(payloads)).events == payloads
    ensures FeedAll(Start, chunks).events == payloads <==> CleanPayloads(payloads)
  {
    FeedAllIsFeed(Start, chunks);
    PrintedWholeLines(payloads);
    GroupPrinted(payloads);
    StandardEventsPrinted(payloads);
    StandardReads(PrintedLines(payloads));
    LinesAgreeIff(PrintedLines(payloads));
    AllClean(payloads);
  }

  // ---------- What is delivered ----------

  /** What the JSON decoder makes of an event's data. */
  datatype Decoded = Frame(stage: string, payload: string) | Undecodable

  function Wanted(d: Decoded): seq<string> {
    if d.Frame? && d.stage == "predictions" then [d.payload] else []
  }

  function Deliver(decode: string -> Decoded, events: seq<string>): seq<string> {
    if events == [] then []
    else Deliver(decode, events[..|events| - 1]) + Wanted(decode(events[|events| - 1]))
  }

  lemma {:induction false} DeliverConcat(decode: string -> Decoded, a: seq<string>, b: seq<string>)
    ensures Deliver(decode, a + b) == Deliver(decode, a) + Deliver(decode, b)
  {
    if b == [] {
      assert a + b == a;
    } else {
      assert (a + b)[..|a + b| - 1] == a + b[..|b| - 1];
      DeliverConcat(decode, a, b[..|b| - 1]);
    }
  }

  /** Between two events: no unfinished line and no collected data. */
  predicate BetweenEvents(p: Parser) { p.line == "" && p.data == "" }

  /** Events already handed on do not influence the parser. */
  lemma {:induction false} EventsAhead(es: seq<string>, p: Parser, bytes: string)
    ensures Feed(p.(events := es + p.events), bytes) == Feed(p, bytes).(events := es + Feed(p, bytes).events)
  {
    if bytes != "" {
      EventsAhead(es, p, bytes[..|bytes| - 1]);
      var q := Feed(p, bytes[..|bytes| - 1]);
      assert es + (q.events + [q.data]) == (es + q.events) + [q.data];
    }
  }

  lemma FromBetween(before: string, bytes: string)
    requires BetweenEvents(Feed(Start, before))
    ensures Feed(Start, before + bytes) == Feed(Start, bytes).(events := Feed(Start, before).events + Feed(Start, bytes).events)
  {
    var es := Feed(Start, before).events;
    FeedConcat(Start, before, bytes);
    assert es + [] == es;
    EventsAhead(es, Start, bytes);
  }

  lemma ThreeParts(before: string, bad: string, after: string)
    requires BetweenEvents(Feed(Start, before)) && BetweenEvents(Feed(Start, bad))
    ensures Feed(Start, before + bad + after).events ==
            Feed(Start, before).events + (Feed(Start, bad).events + Feed(Start, after).events)
  {
    Associative(before, bad, after);
    FromBetween(before, bad + after);
    FromBetween(bad, after);
  }

  /** Whatever bytes come before and after, a stretch of whole events that do not decode, or are of another stage,
      loses only itself: the stream with it and the stream without it deliver the same payloads. */
  lemma BadEventLosesOnlyItself(decode: string -> Decoded, before: string, bad: string, after: string)
    requires BetweenEvents(Feed(Start, before)) && BetweenEvents(Feed(Start, bad))
    requires Deliver(decode, Feed(Start, bad).events) == []
    ensures Deliver(decode, Feed(Start, before + bad + after).events) == Deliver(decode, Feed(Start, before + after).events)
  {
    ThreeParts(before, bad, after);
    FromBetween(before, after);
    DeliverWithout(decode, Feed(Start, before).events, Feed(Start, bad).events, Feed(Start, after).events);
  }

  lemma DeliverWithout(decode: string -> Decoded, a: seq<string>, x: seq<string>, b: seq<string>)
    requires Deliver(decode, x) == []
    ensures Deliver(decode, a + (x + b)) == Deliver(decode, a + b)
  {
    DeliverConcat(decode, a, x + b);
    DeliverConcat(decode, x, b);
    DeliverConcat(decode, a, b);
    assert [] + Deliver(decode, b) == Deliver(decode, b);
  }

  lemma {:induction false} TerminateConcat(a: seq<string>, b: seq<string>)
    ensures Terminate(a + b) == Terminate(a) + Terminate(b)
  {
    if b == [] {
      assert a + b == a;
    } else {
      var front, l := b[..|b| - 1], b[|b| - 1];
      assert (a + b)[..|a + b| - 1] == a + front;
      TerminateConcat(a, front);
    }
  }

  lemma {:induction false} PrintedConcat(a: seq<string>, b: seq<string>)
    ensures PrintedLines(a + b) == PrintedLines(a) + PrintedLines(b)
  {
    if b == [] {
      assert a + b == a;
    } else {
      var front, p := b[..|b| - 1], b[|b| - 1];
      assert (a + b)[..|a + b| - 1] == a + front && (a + b)[|a + b| - 1] == p;
      PrintedConcat(a, front);
      Associative(PrintedLines(a), PrintedLines(front), PrintLines(Lines(p)));
      Associative(PrintedLines(a), PrintedLines(front) + PrintLines(Lines(p)), [""]);
    }
  }

  lemma PrintConcat(a: seq<string>, b: seq<string>)
    ensures Print(a + b) == Print(a) + Print(b)
  {
    PrintedConcat(a, b);
    TerminateConcat(PrintedLines(a), PrintedLines(b));
  }

  lemma PrintedReads(ps: seq<string>)
    ensures Feed(Start, Print(ps)) == Parser("", "", ReaderEvents(FieldsOfAll(ps)))
  {
    PrintedWholeLines(ps);
    ReaderReads(PrintedLines(ps));
    GroupPrinted(ps);
  }

  /** In particular a printed payload, clean or not, of which the reader makes no wanted event. */
  lemma BadPayloadLosesOnlyItself(decode: string -> Decoded, before: seq<string>, bad: string, after: seq<string>)
    requires forall e :: e in ReaderEvent(Fields(Lines(bad))) ==> Wanted(decode(e)) == []
    ensures Deliver(decode, Feed(Start, Print(before + [bad] + after)).events)
         == Deliver(decode, Feed(Start, Print(before + after)).events)
  {
    PrintedReads(before);
    PrintedReads([bad]);
    OnePayload(bad);
    var es := ReaderEvent(Fields(Lines(bad)));
    assert es == [] || (es == [es[0]] && es[0] in es && [es[0]][..0] == []);
    BadEventLosesOnlyItself(decode, Print(before), Print([bad]), Print(after));
    PrintConcat(before + [bad], after);
    PrintConcat(before, [bad]);
    PrintConcat(before, after);
  }

  lemma OnePayload(p: string)
    ensures ReaderEvents(FieldsOfAll([p])) == ReaderEvent(Fields(Lines(p)))
  {
    var blocks := FieldsOfAll([p]);
    assert blocks == [Fields(Lines(p))] && blocks[..0] == [];
    assert [] + ReaderEvent(Fields(Lines(p))) == ReaderEvent(Fields(Lines(p)));
  }

  /** What each event contributes. */
  ghost predicate Contributes(decode: string -> Decoded, given: string -> Option<string>) {
    forall e :: given(e) ==
      if decode(e).Frame? && decode(e).stage == "predictions" then Some(decode(e).payload) else None
  }

  lemma {:induction false} DeliverCollects(decode: string -> Decoded, events: seq<string>, given: string -> Option<string>)
    requires Contributes(decode, given)
    ensures Collects(Deliver(decode, events), events, given)
  {
    if events != [] {
      var front, e := events[..|events| - 1], events[|events| - 1];
      DeliverCollects(decode, front, given);
      assert Deliver(decode, front) + [] == Deliver(decode, front);
      CollectsNext(Deliver(decode, front), events, given, Deliver(decode, events));
    }
  }

  /** From bytes to receiver: of clean payloads, however cut into chunks, exactly those are due that decode to a frame of
      the stage "predictions", in order and with that frame's payload; and due ones are sent until the receiver is
      gone, all of them if it never is. */
  lemma ReceivedIff(decode: string -> Decoded, gone: nat -> bool, payloads: seq<string>, chunks: seq<string>,
                    given: string -> Option<string>) returns (due: seq<string>)
    requires CleanPayloads(payloads) && Flat(chunks) == Print(payloads) && Contributes(decode, given)
    ensures Collects(due, payloads, given)
    ensures var sent := Sent(gone, Deliver(decode, FeedAll(Start, chunks).events));
            && sent <= due && (forall k :: 0 <= k < |sent| ==> !gone(k))
            && (sent == due || gone(|sent|))
  {
    RoundTripIff(payloads, chunks);
    due := Deliver(decode, payloads);
    DeliverCollects(decode, payloads, given);
    SentIsPrefix(gone, due);
  }

  lemma DeliverOneMore(decode: string -> Decoded, events: seq<string>, e: string)
    ensures Deliver(decode, events + [e]) == Deliver(decode, events) + Wanted(decode(e))
  {
    assert (events + [e])[..|events|] == events;
  }

  /** Sends succeed until the receiver is found to be gone. */
  function Sent(gone: nat -> bool, payloads: seq<string>): (r: seq<string>)
    ensures |r| <= |payloads|
  {
    if payloads == [] then []
    else
      var front := Sent(gone, payloads[..|payloads| - 1]);
      if |front| < |payloads| - 1 || gone(|front|) then front else front + [payloads[|payloads| - 1]]
  }

  lemma {:induction false} SentIsPrefix(gone: nat -> bool, payloads: seq<string>)
    ensures Sent(gone, payloads) == payloads[..|Sent(gone, payloads)|]
    ensures forall k :: 0 <= k < |Sent(gone, payloads)| ==> !gone(k)
    ensures |Sent(gone, payloads)| < |payloads| ==> gone(|Sent(gone, payloads)|)
  {
    if payloads != [] {
      var front := payloads[..|payloads| - 1];
      SentIsPrefix(gone, front);
      assert front + [payloads[|payloads| - 1]] == payloads;
    }
  }

  /** Once the receiver is gone nothing more is sent. */
  lemma {:induction false} SentStops(gone: nat -> bool, payloads: seq<string>, more: seq<string>)
    requires |Sent(gone, payloads)| < |payloads|
    ensures Sent(gone, payloads + more) == Sent(gone, payloads)
  {
    if more == [] {
      assert payloads + more == payloads;
    } else {
      SentStops(gone, payloads, more[..|more| - 1]);
      assert (payloads + more)[..|payloads + more| - 1] == payloads + more[..|more| - 1];
    }
  }

  /** The events and the data after a line has ended. */
  function Dispatched(events: seq<string>, line: string, data: string): seq<string> {
    if line == "" && data != "" then events + [data] else events
  }

  function Collected(line: string, data: string): string {
    if line == "" then "" else if StartsWith(line, "data:") then Append(data, TrimStart(line[5..])) else data
  }

  lemma LineEnds(p: Parser)
    ensures EndLine(p) == Parser("", Collected(p.line, p.data), Dispatched(p.events, p.line, p.data))
  {
  }

  /** The read loop of one connection. Its fields hold what the parser holds after all bytes so far. */
  class StreamReader {
    const decode: string -> Decoded
    const gone: nat -> bool
    var lineBuf: string
    var dataBuf: string
    var sent: seq<string>
    var closed: bool
    ghost var bytes: string

    ghost function Payloads(): seq<string>
      reads this
    {
      Deliver(decode, Feed(Start, bytes).events)
    }

    ghost predicate Valid()
      reads this
    {
      && sent == Sent(gone, Payloads())
      && (closed <==> |sent| < |Payloads()|)
      && (!closed ==> lineBuf == Feed(Start, bytes).line && dataBuf == Feed(Start, bytes).data)
    }

    constructor (decode: string -> Decoded, gone: nat -> bool)
      ensures Valid() && bytes == "" && this.decode == decode && this.gone == gone
    {
      this.decode, this.gone := decode, gone;
      lineBuf, dataBuf, sent, closed, bytes := "", "", [], false, "";
    }

    /** A blank line with data collected: decode it, and send the payload of a predictions frame. */
    method DispatchEvent(ghost events: seq<string>)
      requires sent == Sent(gone, Deliver(decode, events)) == Deliver(decode, events)
      requires !closed
      modifies this`dataBuf, this`sent, this`closed
      ensures sent == Sent(gone, Deliver(decode, events + [old(dataBuf)]))
      ensures closed <==> |sent| < |Deliver(decode, events + [old(dataBuf)])|
      ensures !closed ==> dataBuf == ""
    {
      var frame := decode(dataBuf);
      DeliverOneMore(decode, events, dataBuf);
      if frame.Frame? && frame.stage == "predictions" {
        if gone(|sent|) {
          closed := true;
          return;
        }
        sent := sent + [frame.payload];
      } else {
        assert Deliver(decode, events) + [] == Deliver(decode, events);
      }
      dataBuf := "";
    }

    /** A completed line: dispatch on a blank one, collect the value of a data line, ignore any other. */
    method TakeLine(ghost events: seq<string>)
      requires !closed && sent == Sent(gone, Deliver(decode, events)) == Deliver(decode, events)
      modifies this`lineBuf, this`dataBuf, this`sent, this`closed
      ensures var due := Deliver(decode, Dispatched(events, old(lineBuf), old(dataBuf)));
              sent == Sent(gone, due) && (closed <==> |sent| < |due|)
      ensures !closed ==> lineBuf == "" && dataBuf == Collected(old(lineBuf), old(dataBuf))
    {
      var line := lineBuf;
      lineBuf := "";
      if line == "" {
        if dataBuf != "" { DispatchEvent(events); }
      } else {
        CollectValue(line);
      }
    }

    method CollectValue(line: string)
      requires line != ""
      modifies this`dataBuf
      ensures dataBuf == Collected(line, old(dataBuf))
    {
      if StartsWith(line, "data:") {
        if dataBuf != "" { dataBuf := dataBuf + "\n"; }
        dataBuf := dataBuf + TrimStart(line[5..]);
      }
    }

    method TakeByte(byte: char)
      requires Valid() && !closed
      modifies this
      ensures Valid() && bytes == old(bytes) + [byte]
    {
      ghost var p := Feed(Start, bytes);
      SentIsPrefix(gone, Payloads());
      bytes := bytes + [byte];
      assert bytes[..|bytes| - 1] == old(bytes);
      if byte == '\n' {
        LineEnds(p);
        TakeLine(p.events);
      } else {
        lineBuf := lineBuf + [byte];
      }
    }

    /** One chunk. By Valid the outcome depends on the bytes alone, not on how they were cut. */
    method TakeChunk(chunk: string)
      requires Valid()
      modifies this
      ensures Valid() && bytes == old(bytes) + chunk
    {
      var i := 0;
      while i < |chunk| && !closed
        invariant 0 <= i <= |chunk| && Valid() && bytes == old(bytes) + chunk[..i]
      {
        OneFurther(old(bytes), chunk, i);
        TakeByte(chunk[i]);
        i := i + 1;
      }
      Rejoin(old(bytes), chunk, i);
      if closed { IgnoreRest(chunk[i..]); }
    }

    /** The chunks of one connection, to its end or until the receiver is gone. */
    method ReadStream(chunks: seq<string>)
      requires Valid()
      modifies this
      ensures Valid() && bytes == old(bytes) + Flat(chunks)
    {
      var i := 0;
      while i < |chunks|
        invariant 0 <= i <= |chunks| && Valid() && bytes == old(bytes) + Flat(chunks[..i])
      {
        TakeChunk(chunks[i]);
        NextChunk(old(bytes), chunks, i);
        i := i + 1;
      }
      assert chunks[..|chunks|] == chunks;
    }

    /** run_once has returned: the rest of the stream is not looked at. */
    ghost method IgnoreRest(more: string)
      requires Valid() && closed
      modifies this`bytes
      ensures Valid() && bytes == old(bytes) + more
    {
      MoreBytes(gone, decode, bytes, more);
      bytes := bytes + more;
    }
  }

  lemma NextChunk(before: string, chunks: seq<string>, i: nat)
    requires i < |chunks|
    ensures (before + Flat(chunks[..i])) + chunks[i] == before + Flat(chunks[..i + 1])
  {
    assert chunks[..i + 1][..i] == chunks[..i];
    Associative(before, Flat(chunks[..i]), chunks[i]);
  }

  lemma OneFurther(a: string, b: string, i: nat)
    requires i < |b|
    ensures (a + b[..i]) + [b[i]] == a + b[..i + 1]
  {
    assert b[..i + 1] == b[..i] + [b[i]];
  }

  lemma Rejoin(a: string, b: string, i: nat)
    requires i <= |b|
    ensures (a + b[..i]) + b[i..] == a + b
    ensures i == |b| ==> b[..i] == b
  {
  }

  lemma {:induction false} EventsGrow(p: Parser, more: string)
    ensures |p.events| <= |Feed(p, more).events| && Feed(p, more).events[..|p.events|] == p.events
  {
    if more != "" { EventsGrow(p, more[..|more| - 1]); }
  }

  /** Bytes that arrive after the receiver is gone change nothing that was sent. */
  lemma {:induction false} MoreBytes(gone: nat -> bool, decode: string -> Decoded, bytes: string, more: string)
    requires var all := Deliver(decode, Feed(Start, bytes).events); |Sent(gone, all)| < |all|
    ensures var all := Deliver(decode, Feed(Start, bytes).events);
            var later := Deliver(decode, Feed(Start, bytes + more).events);
            Sent(gone, later) == Sent(gone, all) && |Sent(gone, later)| < |later|
  {
    FeedConcat(Start, bytes, more);
    var p := Feed(Start, bytes);
    EventsGrow(p, more);
    var extra := Feed(p, more).events[|p.events|..];
    assert Feed(p, more).events == p.events + extra;
    DeliverConcat(decode, p.events, extra);
    SentStops(gone, Deliver(decode, p.events), Deliver(decode, extra));
  }

  // ---------- Reconnecting ----------

  datatype Cycle = Ended | NotFound | Failed

  /** The wait after k failed cycles in a row. */
  function Wait(k: nat): (r: nat) {
    if k == 0 then 3 else if 2 * Wait(k - 1) < 60 then 2 * Wait(k - 1) else 60
  }

  function FailuresAtEnd(cycles: seq<Cycle>): (r: nat) {
    if cycles == [] || !cycles[|cycles| - 1].Failed? then 0 else 1 + FailuresAtEnd(cycles[..|cycles| - 1])
  }

  /** The waits never leave 3..60 seconds, reach the cap with the fifth failure in a row, and start over after
      a clean cycle; the first failure already waits 6 seconds. */
  lemma {:induction false} WaitShape(k: nat)
    ensures 3 <= Wait(k) <= 60
    ensures Wait(k) == 60 <==> 5 <= k
    ensures Wait(0) == 3 && Wait(1) == 6 && Wait(2) == 12 && Wait(3) == 24 && Wait(4) == 48
    ensures Wait(k) <= Wait(k + 1)
  {
    assert Wait(1) == 6 && Wait(2) == 12 && Wait(3) == 24 && Wait(4) == 48;
    if k > 5 { WaitShape(k - 1); }
  }

  /** How the reconnect loop stands after the given outcomes. */
  datatype Standing = SinkClosed | GaveUp | StillOn

  /** The reconnect loop over the outcomes of its cycles; `closed(i)` tells whether the sink is found closed before
      cycle i. It stops at the first closed sink or NotFound, and until then sleeps after each cycle by the number
      of failures it ends a row of. */
  method Reconnect(cycles: seq<Cycle>, closed: nat -> bool) returns (sleeps: seq<nat>, standing: Standing)
    ensures |sleeps| <= |cycles| && (standing.StillOn? <==> |sleeps| == |cycles|)
    ensures forall i :: 0 <= i < |sleeps| ==> !closed(i) && cycles[i] != NotFound
    ensures standing.SinkClosed? ==> closed(|sleeps|)
    ensures standing.GaveUp? ==> !closed(|sleeps|) && cycles[|sleeps|] == NotFound
    ensures forall i :: 0 <= i < |sleeps| ==> sleeps[i] == Wait(FailuresAtEnd(cycles[..i + 1]))
  {
    var backoff: nat := 3;
    sleeps := [];
    var i := 0;
    while i < |cycles|
      invariant 0 <= i == |sleeps| <= |cycles|
      invariant backoff == Wait(FailuresAtEnd(cycles[..i]))
      invariant forall k :: 0 <= k < i ==> !closed(k) && cycles[k] != NotFound
      invariant forall k :: 0 <= k < i ==> sleeps[k] == Wait(FailuresAtEnd(cycles[..k + 1]))
    {
      assert cycles[..i + 1][..i] == cycles[..i] && cycles[..i + 1][i] == cycles[i];
      if closed(i) { return sleeps, SinkClosed; }
      match cycles[i] {
        case Ended => backoff := 3;
        case NotFound => return sleeps, GaveUp;
        case Failed => backoff := if 2 * backoff < 60 then 2 * backoff else 60;
      }
      sleeps := sleeps + [backoff];
      i := i + 1;
    }
    standing := StillOn;
  }
}
