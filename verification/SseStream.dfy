/** The incremental event-stream parser of src/lib/paper-sse-client.ts: text arrives in chunks, whole
    lines are processed as they complete, the rest waits in a buffer. */
module SseStream {
  import opened Text

  datatype Callback = OnHeartbeat | OnEvent(name: string, raw: string)

  /** The frame being collected, and every callback made so far. */
  datatype Frame = Frame(name: string, data: seq<string>, out: seq<Callback>)

  datatype Parser = Parser(frame: Frame, buffer: string)

  const HEARTBEAT_EVENT := "heartbeat"
  const DEFAULT_EVENT := "message"

  predicate IsBreak(c: char) { c == '\r' || c == '\n' }

  predicate Plain(s: string) { forall i | 0 <= i < |s| :: !IsBreak(s[i]) }

  predicate EndsCr(s: string) { s != "" && s[|s| - 1] == '\r' }

  predicate StartsLf(s: string) { s != "" && s[0] == '\n' }

  /** s.split(/\r\n|\r|\n/) */
  function Lines(s: string): (lines: seq<string>)
    ensures |lines| > 0 && forall i | 0 <= i < |lines| :: Plain(lines[i])
  {
    if s == "" then [""]
    else if s[0] == '\r' && StartsLf(s[1..]) then [""] + Lines(s[2..])
    else if IsBreak(s[0]) then [""] + Lines(s[1..])
    else
      var rest := Lines(s[1..]);
      assert Plain([s[0]] + rest[0]);
      Extend(s[0], rest)
  }

  /** The same lines with one more character in front of the first. */
  function Extend(c: char, lines: seq<string>): seq<string>
    requires lines != []
  {
    [[c] + lines[0]] + lines[1..]
  }

  function Init<T>(xs: seq<T>): seq<T>
    requires xs != []
  {
    xs[..|xs| - 1]
  }

  function Last<T>(xs: seq<T>): T
    requires xs != []
  {
    xs[|xs| - 1]
  }

  function Dispatched(name: string, data: seq<string>): seq<Callback> {
    if data == [] then []
    else if name == HEARTBEAT_EVENT then [OnHeartbeat]
    else [OnEvent(name, Join(data, "\n"))]
  }

  predicate IsHeartbeatComment(line: string) {
    Includes(Lower(line), "heartbeat") || Includes(Lower(line), "ping")
  }

  function ProcessLine(f: Frame, line: string): Frame {
    if StartsWith(line, ":") then
      if IsHeartbeatComment(line) then f.(out := f.out + [OnHeartbeat]) else f
    else if Trim(line) == "" then Frame(DEFAULT_EVENT, [], f.out + Dispatched(f.name, f.data))
    else if StartsWith(line, "event:") then f.(name := Trim(line[6..]))
    else if StartsWith(line, "data:") then
      var val := line[5..];
      f.(data := f.data + [if StartsWith(val, " ") then val[1..] else val])
    else f
  }

  function ProcessLines(f: Frame, lines: seq<string>): Frame
    decreases |lines|
  {
    if lines == [] then f else ProcessLines(ProcessLine(f, lines[0]), lines[1..])
  }

  function Feed(p: Parser, chunk: string): Parser {
    var lines := Lines(p.buffer + chunk);
    Parser(ProcessLines(p.frame, Init(lines)), Last(lines))
  }

  /** The stream ended: an unterminated last line is processed and its frame closed. */
  function Finish(p: Parser): Frame {
    if p.buffer == "" then p.frame else ProcessLine(ProcessLine(p.frame, p.buffer), "")
  }

  const START := Parser(Frame(DEFAULT_EVENT, [], []), "")

  function FeedAll(p: Parser, chunks: seq<string>): Parser
    decreases |chunks|
  {
    if chunks == [] then p else FeedAll(Feed(p, chunks[0]), chunks[1..])
  }

  /** Every callback made when the stream arrives as these chunks. */
  function Callbacks(chunks: seq<string>): seq<Callback> {
    Finish(FeedAll(START, chunks)).out
  }

  function Concat(chunks: seq<string>): string {
    if chunks == [] then "" else chunks[0] + Concat(chunks[1..])
  }

  /** No cut lies between a carriage return and its line feed. */
  predicate CleanCuts(chunks: seq<string>) {
    chunks != [] ==>
      && !(EndsCr(chunks[0]) && StartsLf(Concat(chunks[1..])))
      && CleanCuts(chunks[1..])
  }

  // ------------------------------------------------------------------ the parser reads characters

  /** A line break ends the line in the buffer. */
  function EndLine(p: Parser): Parser {
    Parser(ProcessLine(p.frame, p.buffer), "")
  }

  /** The parser as a reader of single characters, without splitting. */
  function Scan(p: Parser, s: string): Parser
    decreases |s|
  {
    if s == "" then p
    else if s[0] == '\r' && StartsLf(s[1..]) then Scan(EndLine(p), s[2..])
    else if IsBreak(s[0]) then Scan(EndLine(p), s[1..])
    else Scan(Parser(p.frame, p.buffer + [s[0]]), s[1..])
  }

  /** Processing split lines when `left` was left over before them. */
  function Absorb(f: Frame, left: string, lines: seq<string>): Parser
    requires lines != []
    decreases |lines|
  {
    if |lines| == 1 then Parser(f, left + lines[0])
    else Absorb(ProcessLine(f, left + lines[0]), "", lines[1..])
  }

  lemma {:induction false} ScanAbsorbs(p: Parser, s: string)
    ensures Scan(p, s) == Absorb(p.frame, p.buffer, Lines(s))
    decreases |s|
  {
    hide ProcessLine;
    assert p.buffer + "" == p.buffer;
    if s == "" {
    } else if s[0] == '\r' && StartsLf(s[1..]) {
      ScanAbsorbs(EndLine(p), s[2..]);
      assert ([""] + Lines(s[2..]))[1..] == Lines(s[2..]);
    } else if IsBreak(s[0]) {
      ScanAbsorbs(EndLine(p), s[1..]);
      assert ([""] + Lines(s[1..]))[1..] == Lines(s[1..]);
    } else {
      ScanAbsorbs(Parser(p.frame, p.buffer + [s[0]]), s[1..]);
      ExtendMoves(p.frame, p.buffer, s[0], Lines(s[1..]));
    }
  }

  lemma ExtendMoves(f: Frame, left: string, c: char, lines: seq<string>)
    requires lines != []
    ensures Absorb(f, left, Extend(c, lines)) == Absorb(f, left + [c], lines)
  {
    hide ProcessLine;
    assert left + ([c] + lines[0]) == left + [c] + lines[0];
    assert Extend(c, lines)[1..] == lines[1..];
  }

  lemma {:induction false} AbsorbIsSplit(f: Frame, left: string, lines: seq<string>)
    requires lines != []
    ensures Absorb(f, "", lines) == Parser(ProcessLines(f, Init(lines)), Last(lines))
    decreases |lines|
  {
    hide ProcessLine;
    assert "" + lines[0] == lines[0];
    if |lines| > 1 {
      AbsorbIsSplit(ProcessLine(f, lines[0]), "", lines[1..]);
      assert Init(lines)[1..] == Init(lines[1..]) && Init(lines)[0] == lines[0];
    }
  }

  lemma {:induction false} ScanPlain(p: Parser, s: string)
    requires Plain(s)
    ensures Scan(p, s) == Parser(p.frame, p.buffer + s)
    decreases |s|
  {
    if s == "" {
      assert p.buffer + s == p.buffer;
    } else {
      assert s == [s[0]] + s[1..];
      assert p.buffer + [s[0]] + s[1..] == p.buffer + s;
      ScanPlain(Parser(p.frame, p.buffer + [s[0]]), s[1..]);
    }
  }

  lemma TailOfConcat(a: string, b: string)
    requires a != ""
    ensures (a + b)[0] == a[0] && (a + b)[1..] == a[1..] + b
    ensures |a| > 1 ==> (a + b)[2..] == a[2..] + b && (StartsLf((a + b)[1..]) <==> StartsLf(a[1..]))
  {
    assert (a + b)[1..] == a[1..] + b;
  }

  lemma {:induction false} ScanConcat(p: Parser, a: string, b: string)
    requires !(EndsCr(a) && StartsLf(b))
    ensures Scan(p, a + b) == Scan(Scan(p, a), b)
    decreases |a|
  {
    hide ProcessLine, EndLine;
    var s := a + b;
    if a == "" {
      assert s == b;
    } else {
      TailOfConcat(a, b);
      if a[0] == '\r' && StartsLf(a[1..]) {
        ScanConcat(EndLine(p), a[2..], b);
      } else if IsBreak(a[0]) {
        ScanConcat(EndLine(p), a[1..], b);
      } else {
        ScanConcat(Parser(p.frame, p.buffer + [a[0]]), a[1..], b);
      }
    }
  }

  /** Appending, splitting, processing the whole lines and keeping the rest is reading characters. */
  lemma FeedIsScan(p: Parser, chunk: string)
    requires Plain(p.buffer)
    ensures Feed(p, chunk) == Scan(p, chunk) && Plain(Feed(p, chunk).buffer)
  {
    hide ProcessLine;
    var empty := Parser(p.frame, "");
    ScanAbsorbs(empty, p.buffer + chunk);
    AbsorbIsSplit(p.frame, "", Lines(p.buffer + chunk));
    assert !EndsCr(p.buffer);
    ScanConcat(empty, p.buffer, chunk);
    ScanPlain(empty, p.buffer);
    assert "" + p.buffer == p.buffer;
  }

  // ------------------------------------------------------------------ chunk independence

  lemma {:induction false} FeedAllIsScan(p: Parser, chunks: seq<string>)
    requires Plain(p.buffer) && CleanCuts(chunks)
    ensures FeedAll(p, chunks) == Scan(p, Concat(chunks))
    decreases |chunks|
  {
    hide Scan, Feed;
    if chunks == [] {
      ScanPlain(p, "");
      assert p.buffer + "" == p.buffer;
    } else {
      FeedIsScan(p, chunks[0]);
      FeedAllIsScan(Feed(p, chunks[0]), chunks[1..]);
      ScanConcat(p, chunks[0], Concat(chunks[1..]));
    }
  }

  /** Main result: two ways of cutting the same text, neither with a cut inside a CRLF, make the same
      callbacks; in particular the same as parsing the text in one piece. */
  lemma ChunksDoNotMatter(xs: seq<string>, ys: seq<string>)
    requires CleanCuts(xs) && CleanCuts(ys) && Concat(xs) == Concat(ys)
    ensures Callbacks(xs) == Callbacks(ys) == Callbacks([Concat(xs)])
  {
    var whole := [Concat(xs)];
    assert whole[1..] == [] && Concat(whole) == Concat(xs) + "" == Concat(xs);
    FeedAllIsScan(START, xs);
    FeedAllIsScan(START, ys);
    FeedAllIsScan(START, whole);
  }

  /** A text without carriage returns may be cut anywhere. */
  lemma {:induction false} WithoutCrAllCutsClean(chunks: seq<string>)
    requires '\r' !in Concat(chunks)
    ensures CleanCuts(chunks)
  {
    if chunks != [] {
      assert forall c <- Concat(chunks[1..]) :: c in Concat(chunks);
      WithoutCrAllCutsClean(chunks[1..]);
      assert forall c <- chunks[0] :: c in Concat(chunks);
    }
  }

  // ------------------------------------------------------------------ cuts inside a CRLF

  lemma {:induction false} ScanAcrossCrlf(p: Parser, a: string, rest: string)
    requires EndsCr(a)
    ensures Scan(p, a + "\n" + rest) == Scan(Scan(p, a), rest) && Scan(p, a).buffer == ""
    decreases |a|
  {
    hide ProcessLine;
    var s := a + "\n" + rest;
    if |a| == 1 {
      assert s[2..] == rest && s[1..][0] == '\n' && a[1..] == "";
    } else {
      assert s[1..] == a[1..] + "\n" + rest;
      if a[0] == '\r' && StartsLf(a[1..]) {
        assert s[2..] == a[2..] + "\n" + rest && s[1..][0] == '\n';
        ScanAcrossCrlf(EndLine(p), a[2..], rest);
      } else if IsBreak(a[0]) {
        ScanAcrossCrlf(EndLine(p), a[1..], rest);
      } else {
        ScanAcrossCrlf(Parser(p.frame, p.buffer + [a[0]]), a[1..], rest);
      }
    }
  }

  predicate Idle(f: Frame) { f.name == DEFAULT_EVENT && f.data == [] }

  ghost predicate CutUnseen(a: string, rest: string) {
    Callbacks([a, "\n" + rest]) == Callbacks([a + "\n" + rest])
  }

  /** Feeding a cut CRLF ends the open frame early; the unbroken text does not. */
  lemma CutCrlf(a: string, rest: string)
    requires EndsCr(a)
    ensures var p := Scan(START, a);
      && Callbacks([a, "\n" + rest]) == Finish(Scan(EndLine(p), rest)).out
      && Callbacks([a + "\n" + rest]) == Finish(Scan(p, rest)).out
  {
    hide ProcessLine, Feed, Finish;
    var p := Scan(START, a);
    ScanAcrossCrlf(START, a, rest);
    FeedIsScan(START, a);
    FeedIsScan(p, "\n" + rest);
    ScanLf(p, rest);
    FeedIsScan(START, a + "\n" + rest);
    FeedTwo(START, a, "\n" + rest);
    FeedOne(START, a + "\n" + rest);
  }

  lemma ScanLf(p: Parser, rest: string)
    ensures Scan(p, "\n" + rest) == Scan(EndLine(p), rest)
  {
    assert ("\n" + rest)[1..] == rest;
  }

  lemma FeedOne(p: Parser, chunk: string)
    ensures FeedAll(p, [chunk]) == Feed(p, chunk)
  {
    assert [chunk][1..] == [];
  }

  lemma FeedTwo(p: Parser, a: string, b: string)
    ensures FeedAll(p, [a, b]) == Feed(Feed(p, a), b)
  {
    assert [a, b][1..] == [b];
    FeedOne(Feed(p, a), b);
  }

  /** What follows a cut can always tell: an empty data line and a blank one. */
  const PROBE := "data:" + "\n\n"

  lemma ProbeTells(f: Frame)
    ensures Finish(Scan(Parser(f, ""), PROBE)).out == f.out + Dispatched(f.name, f.data + [""])
  {
    hide ProcessLine, Scan;
    var p := Parser(f, "");
    ScanConcat(p, "data:", "\n\n");
    ScanPlain(p, "data:");
    assert "" + "data:" == "data:";
    var q := Parser(f, "data:");
    assert "\n" + "\n" == "\n\n" && "\n" + "" == "\n";
    ScanLf(q, "\n");
    ScanLf(EndLine(q), "");
    ScanNothing(EndLine(EndLine(q)));
    DataLine(f, "data:", "");
    BlankLine(f.(data := f.data + [""]));
  }

  lemma DataLine(f: Frame, line: string, val: string)
    requires line == "data:" + val && !StartsWith(val, " ")
    ensures ProcessLine(f, line) == f.(data := f.data + [val])
  {
    TrimKeepsFirst(line);
    assert line[0] == 'd' && line[..5] == "data:" && line[5..] == val;
    assert !StartsWith(line, "event:") by { assert "event:"[0] == 'e'; }
  }

  lemma BlankLine(f: Frame)
    ensures ProcessLine(f, "") == Frame(DEFAULT_EVENT, [], f.out + Dispatched(f.name, f.data))
  {
  }

  lemma TrimKeepsFirst(line: string)
    requires line != "" && !IsSpace(line[0])
    ensures Trim(line) != ""
  {
    TrimEndKeepsFirst(line);
  }

  lemma {:induction false} TrimEndKeepsFirst(s: string)
    requires s != "" && !IsSpace(s[0])
    ensures TrimEnd(s) != "" && TrimEnd(s)[0] == s[0]
  {
    if IsSpace(s[|s| - 1]) { TrimEndKeepsFirst(s[..|s| - 1]); }
  }

  /** Main result, the excluded cuts: a cut inside a CRLF goes unnoticed whatever text follows exactly
      when no frame is open there, that is no data line and no other event name is pending. */
  lemma CutInsideCrlf(a: string)
    requires EndsCr(a)
    ensures (forall rest :: CutUnseen(a, rest)) <==> Idle(Scan(START, a).frame)
  {
    var p := Scan(START, a);
    ScanAcrossCrlf(START, a, "");
    if Idle(p.frame) {
      forall rest ensures CutUnseen(a, rest) {
        CutCrlf(a, rest);
        BlankLine(p.frame);
        assert p.frame.out + [] == p.frame.out;
      }
    } else {
      CutTold(a, p);
      assert !CutUnseen(a, PROBE);
    }
  }

  lemma CutTold(a: string, p: Parser)
    requires EndsCr(a) && p == Scan(START, a) && p.buffer == "" && !Idle(p.frame)
    ensures !CutUnseen(a, PROBE)
  {
    hide ProcessLine, Scan;
    var f := p.frame;
    CutCrlf(a, PROBE);
    BlankLine(f);
    ProbeTells(f);
    ProbeTells(EndLine(p).frame);
    assert [] + [""] == [""];
    ProbeDiffers(f.out, f.name, f.data);
  }

  lemma ProbeDiffers(out: seq<Callback>, name: string, data: seq<string>)
    requires name != DEFAULT_EVENT || data != []
    ensures out + Dispatched(name, data) + Dispatched(DEFAULT_EVENT, [""]) != out + Dispatched(name, data + [""])
  {
    var cut, unbroken := out + Dispatched(name, data) + Dispatched(DEFAULT_EVENT, [""]),
        out + Dispatched(name, data + [""]);
    if data == [] {
      assert cut[|out|] != unbroken[|out|];
    } else {
      assert |cut| == |out| + 2 && |unbroken| == |out| + 1;
    }
  }

  lemma ScanCr(p: Parser)
    ensures Scan(p, "\r") == EndLine(p)
  {
    assert "\r"[1..] == "";
  }

  /** Such a cut exists: after one pending data line, one event becomes two. */
  lemma CutCrlfSplitsAnEvent()
    ensures !forall rest :: CutUnseen("data:x" + "\r", rest)
  {
    hide ProcessLine, Scan, CutUnseen;
    var a := "data:x" + "\r";
    ScanConcat(START, "data:x", "\r");
    ScanPlain(START, "data:x");
    assert "" + "data:x" == "data:x" && "data:" + "x" == "data:x";
    DataLine(START.frame, "data:x", "x");
    ScanCr(Parser(START.frame, "data:x"));
    assert Scan(START, a).frame.data == ["x"];
    CutInsideCrlf(a);
  }

  // ------------------------------------------------------------------ comments

  ghost predicate Around(s: string, word: string, before: string, after: string) {
    s == before + word + after
  }

  /** The text has the word somewhere, in any case. */
  ghost predicate Says(text: string, word: string) {
    exists before, after :: Around(Lower(text), word, before, after)
  }

  lemma {:induction false} Found(s: string, word: string) returns (before: string, after: string)
    requires Includes(s, word)
    ensures Around(s, word, before, after)
  {
    if word <= s {
      before, after := "", s[|word|..];
    } else {
      before, after := Found(s[1..], word);
      assert s == [s[0]] + s[1..];
      before := [s[0]] + before;
    }
  }

  lemma {:induction false} Included(s: string, word: string, before: string, after: string)
    requires Around(s, word, before, after)
    ensures Includes(s, word)
  {
    if before == "" {
      assert s == word + after;
    } else {
      assert s[1..] == before[1..] + word + after;
      Included(s[1..], word, before[1..], after);
    }
  }

  lemma IncludesIs(s: string, word: string)
    ensures Includes(s, word) <==> exists before, after :: Around(s, word, before, after)
  {
    hide Around;
    if Includes(s, word) { var before, after := Found(s, word); }
    forall before, after | Around(s, word, before, after) ensures Includes(s, word) {
      Included(s, word, before, after);
    }
  }

  /** A comment is never part of an event: it leaves the open frame alone, and is a heartbeat exactly when it
      says "heartbeat" or "ping". */
  lemma CommentsAreHeartbeats(f: Frame, text: string)
    ensures ProcessLine(f, ":" + text) ==
      if Says(":" + text, "heartbeat") || Says(":" + text, "ping") then f.(out := f.out + [OnHeartbeat]) else f
  {
    IncludesIs(Lower(":" + text), "heartbeat");
    IncludesIs(Lower(":" + text), "ping");
  }

  /** A line that is neither blank nor a comment nor starts with "event:" or "data:" is ignored. */
  lemma OtherLinesIgnored(f: Frame, line: string)
    requires Trim(line) != "" && !(":" <= line) && !("event:" <= line) && !("data:" <= line)
    ensures ProcessLine(f, line) == f
  {
  }

  // ------------------------------------------------------------------ printing a frame, then parsing it

  datatype Message = Message(name: string, data: seq<string>)

  /** What a frame can carry: an event name that trimming leaves alone, and lines without breaks. */
  predicate Printable(m: Message) {
    && Plain(m.name) && Trim(m.name) == m.name
    && forall i | 0 <= i < |m.data| :: Plain(m.data[i])
  }

  function DataText(data: seq<string>): string {
    if data == [] then "" else "data: " + data[0] + "\n" + DataText(data[1..])
  }

  function FrameText(m: Message): string {
    "event: " + m.name + "\n" + DataText(m.data) + "\n"
  }

  function StreamText(messages: seq<Message>): string {
    if messages == [] then "" else FrameText(messages[0]) + StreamText(messages[1..])
  }

  /** The callbacks the messages stand for: none for a frame without data. */
  function Meant(messages: seq<Message>): seq<Callback> {
    if messages == [] then []
    else
      var m, rest := messages[0], Meant(messages[1..]);
      if m.data == [] then rest
      else [if m.name == "heartbeat" then OnHeartbeat else OnEvent(m.name, Join(m.data, "\n"))] + rest
  }

  lemma ScanLine(f: Frame, line: string, rest: string)
    requires Plain(line)
    ensures Scan(Parser(f, ""), line + "\n" + rest) == Scan(Parser(ProcessLine(f, line), ""), rest)
  {
    hide ProcessLine;
    var p := Parser(f, "");
    assert line + "\n" + rest == line + ("\n" + rest);
    ScanConcat(p, line, "\n" + rest);
    ScanPlain(p, line);
    assert "" + line == line;
    ScanLf(Parser(f, line), rest);
  }

  lemma EventLine(f: Frame, name: string)
    requires Trim(name) == name
    ensures ProcessLine(f, "event: " + name) == f.(name := name)
  {
    var line := "event: " + name;
    TrimKeepsFirst(line);
    assert line[0] == 'e' && line[..6] == "event:" && line[6..] == " " + name;
    assert (" " + name)[1..] == name;
  }

  lemma SpacedDataLine(f: Frame, val: string)
    ensures ProcessLine(f, "data: " + val) == f.(data := f.data + [val])
  {
    var line := "data: " + val;
    TrimKeepsFirst(line);
    assert line[0] == 'd' && line[..5] == "data:" && line[5..] == " " + val;
    assert "event:"[0] == 'e';
    assert (" " + val)[1..] == val && StartsWith(" " + val, " ");
  }

  lemma PlainAfter(prefix: string, s: string)
    requires Plain(prefix) && Plain(s)
    ensures Plain(prefix + s)
  {
  }

  lemma DataPrefixIsPlain()
    ensures Plain("data: ")
  {
  }

  lemma {:induction false} ScanData(f: Frame, data: seq<string>, rest: string)
    requires forall i | 0 <= i < |data| :: Plain(data[i])
    ensures Scan(Parser(f, ""), DataText(data) + rest) == Scan(Parser(f.(data := f.data + data), ""), rest)
    decreases |data|
  {
    hide Scan, ProcessLine, Plain;
    if data == [] {
      assert f.data + data == f.data && DataText(data) + rest == rest;
    } else {
      var line, more := "data: " + data[0], DataText(data[1..]) + rest;
      assert DataText(data) + rest == line + "\n" + more;
      DataPrefixIsPlain();
      PlainAfter("data: ", data[0]);
      ScanLine(f, line, more);
      SpacedDataLine(f, data[0]);
      ScanData(f.(data := f.data + [data[0]]), data[1..], rest);
      assert f.data + [data[0]] + data[1..] == f.data + data;
    }
  }

  lemma ScanFrame(f: Frame, m: Message, rest: string)
    requires Printable(m) && f.data == []
    ensures Scan(Parser(f, ""), FrameText(m) + rest) ==
            Scan(Parser(Frame(DEFAULT_EVENT, [], f.out + Dispatched(m.name, m.data)), ""), rest)
  {
    hide Scan, ProcessLine;
    var line, more := "event: " + m.name, DataText(m.data) + ("\n" + rest);
    assert FrameText(m) + rest == line + "\n" + more;
    PlainAfter("event: ", m.name);
    ScanLine(f, line, more);
    EventLine(f, m.name);
    ScanData(f.(name := m.name), m.data, "\n" + rest);
    assert [] + m.data == m.data && "" + "\n" + rest == "\n" + rest;
    ScanLine(Frame(m.name, m.data, f.out), "", rest);
    BlankLine(Frame(m.name, m.data, f.out));
  }

  lemma {:induction false} ScanStream(f: Frame, messages: seq<Message>)
    requires f.data == [] && forall i | 0 <= i < |messages| :: Printable(messages[i])
    ensures var p := Scan(Parser(f, ""), StreamText(messages));
      p.buffer == "" && p.frame.out == f.out + Meant(messages)
    decreases |messages|
  {
    hide ProcessLine, Scan, FrameText, Printable, Dispatched;
    if messages == [] {
      ScanNothing(Parser(f, ""));
      assert f.out + [] == f.out;
    } else {
      var m := messages[0];
      ScanFrame(f, m, StreamText(messages[1..]));
      var out := f.out + Dispatched(m.name, m.data);
      ScanStream(Frame(DEFAULT_EVENT, [], out), messages[1..]);
      FirstMeant(messages);
      assert out + Meant(messages[1..]) == f.out + Meant(messages);
    }
  }

  lemma FirstMeant(messages: seq<Message>)
    requires messages != []
    ensures Meant(messages) == Dispatched(messages[0].name, messages[0].data) + Meant(messages[1..])
  {
  }

  lemma {:induction false} DataTextNoCr(data: seq<string>)
    requires forall i | 0 <= i < |data| :: Plain(data[i])
    ensures '\r' !in DataText(data)
    decreases |data|
  {
    if data != [] { DataTextNoCr(data[1..]); }
  }

  lemma {:induction false} StreamTextNoCr(messages: seq<Message>)
    requires forall i | 0 <= i < |messages| :: Printable(messages[i])
    ensures '\r' !in StreamText(messages)
    decreases |messages|
  {
    if messages != [] {
      DataTextNoCr(messages[0].data);
      StreamTextNoCr(messages[1..]);
    }
  }

  /** Main result, the round trip: print any frames one after another, cut the text into any chunks, and
      the parser makes exactly the callbacks the frames mean. */
  lemma PrintThenParse(messages: seq<Message>, chunks: seq<string>)
    requires forall i | 0 <= i < |messages| :: Printable(messages[i])
    requires Concat(chunks) == StreamText(messages)
    ensures Callbacks(chunks) == Meant(messages)
  {
    hide Scan;
    StreamTextNoCr(messages);
    WithoutCrAllCutsClean(chunks);
    FeedAllIsScan(START, chunks);
    ScanStream(START.frame, messages);
    assert [] + Meant(messages) == Meant(messages);
  }

  /** The raw text of an event determines its data lines. */
  lemma RawTellsData(data: seq<string>)
    requires data != [] && forall i | 0 <= i < |data| :: Plain(data[i])
    ensures Split(Join(data, "\n"), '\n') == data
  {
    forall part <- data ensures '\n' !in part {
      var i :| 0 <= i < |data| && data[i] == part;
    }
    SplitJoin(data, '\n');
  }

  /** Where the parser departs from section 9.2 of the WHATWG HTML Standard: an unterminated last line
      still closes its frame at the end of the stream, while the same frame with its line ended is
      dropped; and a line of white space ends a frame. */
  lemma PartialFrames(val: string, blank: string)
    requires Plain(val) && Plain(blank) && Trim(blank) == ""
    ensures Callbacks(["data: " + val]) == [OnEvent(DEFAULT_EVENT, val)]
    ensures Callbacks(["data: " + val + "\n"]) == []
    ensures Callbacks(["data: " + val + "\n" + blank + "\n"]) == [OnEvent(DEFAULT_EVENT, val)]
  {
    hide ProcessLine, Scan, Feed;
    var line, f := "data: " + val, START.frame;
    var g := f.(data := [val]);
    var ended := Frame(DEFAULT_EVENT, [], [] + Dispatched(DEFAULT_EVENT, [val]));
    PlainAfter("data: ", val);
    SpacedDataLine(f, val);
    assert [] + [val] == [val];
    BlankLine(g);
    FeedOne(START, line);
    FeedIsScan(START, line);
    ScanPlain(START, line);
    assert "" + line == line;
    FeedOne(START, line + "\n");
    FeedIsScan(START, line + "\n");
    assert line + "\n" + "" == line + "\n";
    ScanLine(f, line, "");
    ScanNothing(Parser(g, ""));
    var text := line + "\n" + blank + "\n";
    FeedOne(START, text);
    FeedIsScan(START, text);
    assert text == line + "\n" + (blank + "\n" + "");
    ScanLine(f, line, blank + "\n" + "");
    ScanLine(g, blank, "");
    WhiteLine(g, blank);
    ScanNothing(Parser(ended, ""));
  }

  lemma ScanNothing(p: Parser)
    ensures Scan(p, "") == p
  {
  }

  lemma WhiteLine(f: Frame, blank: string)
    requires Trim(blank) == ""
    ensures ProcessLine(f, blank) == ProcessLine(f, "")
  {
    if StartsWith(blank, ":") {
      assert blank[0] == ':';
      TrimKeepsFirst(blank);
      assert false;
    }
  }
}
