/** The reader of `text/event-stream` bodies: a restricted form of "Interpreting an event stream",
    section 9.2.6 of the WHATWG HTML standard. */
module EventStream {
  import opened Text

  /** White space as Go's `unicode.IsSpace` has it. */
  predicate IsSpace(c: char) {
    var n := c as int;
    || 9 <= n <= 13 || n == 0x20 || n == 0x85 || n == 0xa0 || n == 0x1680 || 0x2000 <= n <= 0x200a
    || n == 0x2028 || n == 0x2029 || n == 0x202f || n == 0x205f || n == 0x3000
  }

  lemma SpacesAre(c: char)
    ensures IsSpace(c) <==>
            c as int in {9, 10, 11, 12, 13, 32, 133, 160, 5760, 8192, 8193, 8194, 8195, 8196, 8197, 8198, 8199, 8200,
                         8201,
                         8202, 8232, 8233, 8239, 8287, 12288}
  {
  }

  function TrimLeft(s: string): string {
    if s != [] && IsSpace(s[0]) then TrimLeft(s[1..]) else s
  }

  function TrimRight(s: string): string {
    if s != [] && IsSpace(s[|s| - 1]) then TrimRight(s[..|s| - 1]) else s
  }

  function TrimSpace(s: string): string {
    TrimRight(TrimLeft(s))
  }

  function TrimCR(s: string): string {
    if s != [] && s[|s| - 1] == '\r' then TrimCR(s[..|s| - 1]) else s
  }

  datatype Line = Blank | EventLine(name: string) | DataLine(payload: string) | OtherLine

  function Classify(raw: string): Line {
    var line := TrimCR(raw);
    if line == "" then Blank
    else if HasPrefix(line, "event:") then EventLine(TrimSpace(TrimPrefix(line, "event:")))
    else if HasPrefix(line, "data:") then DataLine(TrimSpace(TrimPrefix(line, "data:")))
    else OtherLine
  }

  predicate AllSpace(s: string) {
    forall c | c in s :: IsSpace(c)
  }

  lemma {:induction false} TrimLeftTakesSpace(s: string)
    ensures TrimLeft(s) == [] || !IsSpace(TrimLeft(s)[0])
    ensures |TrimLeft(s)| <= |s| && s[|s| - |TrimLeft(s)|..] == TrimLeft(s) && AllSpace(s[..|s| - |TrimLeft(s)|])
  {
    if s != [] && IsSpace(s[0]) {
      TrimLeftTakesSpace(s[1..]);
      var n := |s| - |TrimLeft(s)|;
      assert s[..n] == [s[0]] + s[1..][..n - 1];
    }
  }

  lemma {:induction false} TrimRightTakesSpace(s: string)
    ensures TrimRight(s) == [] || !IsSpace(TrimRight(s)[|TrimRight(s)| - 1])
    ensures |TrimRight(s)| <= |s| && s[..|TrimRight(s)|] == TrimRight(s) && AllSpace(s[|TrimRight(s)|..])
    decreases |s|
  {
    if s != [] && IsSpace(s[|s| - 1]) {
      var front := s[..|s| - 1];
      TrimRightTakesSpace(front);
      var n := |TrimRight(s)|;
      assert s[n..] == front[n..] + [s[|s| - 1]];
    }
  }

  /** Trimming takes away the white space at both ends and nothing else. */
  lemma TrimSpaceTakesSpace(s: string)
    ensures exists a, b :: AllSpace(a) && AllSpace(b) && s == a + TrimSpace(s) + b
    ensures var t := TrimSpace(s); t == [] || (!IsSpace(t[0]) && !IsSpace(t[|t| - 1]))
  {
    var l, t := TrimLeft(s), TrimSpace(s);
    TrimLeftTakesSpace(s);
    TrimRightTakesSpace(l);
    var a, b := s[..|s| - |l|], l[|t|..];
    assert s == a + l && l == t + b;
    assert s == a + t + b;
    assert t != [] ==> t[0] == l[0];
  }

  /** What a line is: without carriage returns at its end, empty, or a field by the letters it starts with. */
  lemma ClassifyMeans(line: string)
    requires line == [] || line[|line| - 1] != '\r'
    ensures Classify(line).Blank? <==> line == ""
    ensures forall name :: Classify(line) == EventLine(name) <==>
              |line| >= 6 && line[..6] == "event:" && name == TrimSpace(line[6..])
    ensures forall payload :: Classify(line) == DataLine(payload) <==>
              |line| >= 5 && line[..5] == "data:" && payload == TrimSpace(line[5..])
    ensures Classify(line + ['\r']) == Classify(line)
  {
    assert (line + ['\r'])[..|line|] == line;
    assert TrimCR(line) == line && TrimCR(line + ['\r']) == line;
    assert |"event:"| == 6 && |"data:"| == 5;
    assert line != "" && |line| >= 5 && line[..5] == "data:" ==> line[0] == 'd';
    assert |line| >= 6 && line[..6] == "event:" ==> line[0] == 'e';
  }

  predicate IsMessage(eventType: string) {
    eventType == "message" || eventType == ""
  }

  /** Reading on from a line boundary, with `eventType` in force. */
  function Scan(lines: seq<string>, eventType: string): Option<string>
    decreases |lines|, 0
  {
    if lines == [] then None else ScanLine(Classify(lines[0]), lines[1..], eventType)
  }

  function ScanLine(line: Line, rest: seq<string>, eventType: string): Option<string>
    decreases |rest|, 1
  {
    match line
    case Blank => Scan(rest, "")
    case EventLine(name) => Scan(rest, name)
    case DataLine(payload) => if IsMessage(eventType) then Some(payload) else Scan(rest, eventType)
    case OtherLine => Scan(rest, eventType)
  }

  /** `readFirstMessage` over a body that was read to its end; `None` is the error of a stream that
      closed without a message. */
  method ReadFirstMessage(body: string) returns (data: Option<string>)
    ensures data == Scan(Split(body, '\n'), "")
  {
    var lines := Split(body, '\n');
    var eventType := "";
    for i := 0 to |lines|
      invariant Scan(lines[i..], eventType) == Scan(lines, "")
    {
      assert lines[i..][0] == lines[i] && lines[i..][1..] == lines[i + 1..];
      var line := TrimCR(lines[i]);
      if line == "" {
        eventType := "";
      } else if HasPrefix(line, "event:") {
        eventType := TrimSpace(TrimPrefix(line, "event:"));
      } else if HasPrefix(line, "data:") {
        if eventType == "message" || eventType == "" {
          return Some(TrimSpace(TrimPrefix(line, "data:")));
        }
      }
    }
    return None;
  }

  // ---------------------------------------------------------------------
  // What the reader finds
  // ---------------------------------------------------------------------

  /** `j` is the last event line before `k` with no blank line between them. */
  ghost predicate LastEventLine(lines: seq<string>, j: int, k: int) {
    && 0 <= j < k <= |lines| && Classify(lines[j]).EventLine?
    && forall i | j < i < k :: !Classify(lines[i]).EventLine? && !Classify(lines[i]).Blank?
  }

  /** Line `k` stands under a message event: the last event line since the last blank line
      says "message" or nothing, or there is none. */
  ghost predicate UnderMessage(lines: seq<string>, k: int) {
    forall j | LastEventLine(lines, j, k) :: IsMessage(Classify(lines[j]).name)
  }

  ghost predicate MessageAt(lines: seq<string>, k: int) {
    0 <= k < |lines| && Classify(lines[k]).DataLine? && UnderMessage(lines, k)
  }

  /** What is in force after the first `k` lines. */
  function InForce(lines: seq<string>, k: nat): string
    requires k <= |lines|
  {
    if k == 0 then ""
    else
      match Classify(lines[k - 1])
      case Blank => ""
      case EventLine(name) => name
      case _ => InForce(lines, k - 1)
  }

  lemma {:induction false} InForceIsLastEvent(lines: seq<string>, k: nat)
    requires k <= |lines|
    ensures || InForce(lines, k) == ""
            || exists j :: LastEventLine(lines, j, k) && InForce(lines, k) == Classify(lines[j]).name
    ensures forall j | LastEventLine(lines, j, k) :: InForce(lines, k) == Classify(lines[j]).name
  {
    if k == 0 {
    } else {
      InForceIsLastEvent(lines, k - 1);
      var line := Classify(lines[k - 1]);
      if line.EventLine? {
        assert LastEventLine(lines, k - 1, k);
      } else if !line.Blank? {
        assert forall j | LastEventLine(lines, j, k) :: LastEventLine(lines, j, k - 1);
        assert forall j | LastEventLine(lines, j, k - 1) :: LastEventLine(lines, j, k);
      }
    }
  }

  lemma UnderMessageIffInForce(lines: seq<string>, k: nat)
    requires k <= |lines|
    ensures UnderMessage(lines, k) <==> IsMessage(InForce(lines, k))
  {
    InForceIsLastEvent(lines, k);
  }

  lemma {:induction false} ScanFrom(lines: seq<string>, k: nat)
    requires k <= |lines|
    requires forall i | 0 <= i < k :: !MessageAt(lines, i)
    ensures Scan(lines, "") == Scan(lines[k..], InForce(lines, k))
  {
    if k == 0 {
      assert lines[0..] == lines;
    } else {
      ScanFrom(lines, k - 1);
      assert lines[k - 1..][0] == lines[k - 1] && lines[k - 1..][1..] == lines[k..];
      UnderMessageIffInForce(lines, k - 1);
      assert !MessageAt(lines, k - 1);
    }
  }

  /** The reader returns the payload of the first data line that stands under a message event,
      and fails exactly when there is no such line. */
  lemma ScanIsFirstMessage(lines: seq<string>)
    ensures Scan(lines, "").None? <==> forall k :: !MessageAt(lines, k)
    ensures forall k | MessageAt(lines, k) && (forall i | 0 <= i < k :: !MessageAt(lines, i)) ::
              Scan(lines, "") == Some(Classify(lines[k]).payload)
  {
    forall k | MessageAt(lines, k) && (forall i | 0 <= i < k :: !MessageAt(lines, i))
      ensures Scan(lines, "") == Some(Classify(lines[k]).payload)
    {
      ScanFrom(lines, k);
      UnderMessageIffInForce(lines, k);
      assert lines[k..][0] == lines[k];
    }
    if k :| MessageAt(lines, k) {
      var first := FirstMessage(lines, k);
    } else {
      ScanFrom(lines, |lines|);
      assert lines[|lines|..] == [];
    }
  }

  lemma {:induction false} FirstMessage(lines: seq<string>, k: int) returns (first: int)
    requires MessageAt(lines, k)
    ensures MessageAt(lines, first) && forall i | 0 <= i < first :: !MessageAt(lines, i)
  {
    if i :| i < k && MessageAt(lines, i) {
      first := FirstMessage(lines, i);
    } else {
      first := k;
    }
  }

  // ---------------------------------------------------------------------
  // Round trip
  // ---------------------------------------------------------------------

  datatype StreamEvent = StreamEvent(name: string, payload: string)

  ghost predicate Trimmed(s: string) {
    s == [] || (!IsSpace(s[0]) && !IsSpace(s[|s| - 1]))
  }

  ghost predicate Printable(e: StreamEvent) {
    Trimmed(e.name) && Trimmed(e.payload) && '\n' !in e.name && '\n' !in e.payload
  }

  function LinesOf(es: seq<StreamEvent>): seq<string> {
    if es == [] then [""]
    else (if es[0].name == "" then [] else ["event: " + es[0].name]) + ["data: " + es[0].payload, ""] + LinesOf(es[1..])
  }

  function Print(es: seq<StreamEvent>): string {
    Join(LinesOf(es), '\n')
  }

  /** The payload of the first message among the events. */
  function FirstPayload(es: seq<StreamEvent>): Option<string> {
    if es == [] then None
    else if IsMessage(es[0].name) then Some(es[0].payload)
    else FirstPayload(es[1..])
  }

  lemma TrimField(s: string)
    requires Trimmed(s)
    ensures TrimSpace([' '] + s) == s
  {
    assert ([' '] + s)[1..] == s;
    assert TrimLeft(s) == s;
  }

  lemma FieldLine(field: string, s: string)
    requires Trimmed(s)
    ensures TrimCR(field + ": " + s) == field + ": " + s
    ensures HasPrefix(field + ": " + s, field + ":")
    ensures TrimSpace(TrimPrefix(field + ": " + s, field + ":")) == s
  {
    var line := field + ": " + s;
    assert line[..|field| + 1] == field + ":";
    assert line[|field| + 1..] == [' '] + s;
    TrimField(s);
    assert s != [] ==> line[|line| - 1] == s[|s| - 1];
  }

  lemma EventLineOf(s: string)
    requires Trimmed(s)
    ensures Classify("event: " + s) == EventLine(s)
  {
    assert "event" + ": " == "event: " && "event" + ":" == "event:";
    FieldLine("event", s);
  }

  lemma DataLineOf(s: string)
    requires Trimmed(s)
    ensures Classify("data: " + s) == DataLine(s)
  {
    assert "data" + ": " == "data: " && "data" + ":" == "data:";
    FieldLine("data", s);
    assert ("data: " + s)[0] == 'd';
  }

  lemma ScanCons(head: string, rest: seq<string>, t: string)
    ensures Scan([head] + rest, t) == ScanLine(Classify(head), rest, t)
  {
    assert ([head] + rest)[1..] == rest;
  }

  lemma {:induction false} ScanPrinted(es: seq<StreamEvent>)
    requires forall e | e in es :: Printable(e)
    ensures Scan(LinesOf(es), "") == FirstPayload(es)
  {
    if es == [] {
      ScanCons("", [], "");
      assert [""] == [""] + [];
    } else {
      var e, rest := es[0], LinesOf(es[1..]);
      assert e in es;
      ScanPrinted(es[1..]);
      var data := ["data: " + e.payload] + ([""] + rest);
      assert ["data: " + e.payload, ""] + rest == data;
      DataLineOf(e.payload);
      ScanCons("data: " + e.payload, [""] + rest, e.name);
      ScanCons("", rest, e.name);
      if e.name == "" {
        assert LinesOf(es) == data;
      } else {
        EventLineOf(e.name);
        ScanCons("event: " + e.name, data, "");
        assert LinesOf(es) == ["event: " + e.name] + data;
      }
    }
  }

  lemma {:induction false} PrintedLinesHaveNoNewline(es: seq<StreamEvent>)
    requires forall e | e in es :: Printable(e)
    ensures forall l | l in LinesOf(es) :: '\n' !in l
  {
    if es == [] {
    } else {
      assert es[0] in es;
      PrintedLinesHaveNoNewline(es[1..]);
    }
  }

  /** Reading what was printed gives the first message's payload. */
  lemma PrintThenRead(es: seq<StreamEvent>)
    requires forall e | e in es :: Printable(e)
    ensures Scan(Split(Print(es), '\n'), "") == FirstPayload(es)
  {
    PrintedLinesHaveNoNewline(es);
    SplitJoin(LinesOf(es), '\n');
    ScanPrinted(es);
  }

  /** Where the reader departs from the standard, which joins the data lines of one event:
      only the first of them is returned. */
  lemma LaterDataLinesAreDropped(p: string, q: string, rest: seq<string>)
    requires Trimmed(p)
    ensures Scan(["data: " + p, "data: " + q] + rest, "") == Some(p)
  {
    DataLineOf(p);
    assert ["data: " + p, "data: " + q] + rest == ["data: " + p] + (["data: " + q] + rest);
    ScanCons("data: " + p, ["data: " + q] + rest, "");
  }
}
