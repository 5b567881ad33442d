/**
  The event stream between a remote graph and its client, byte by byte: what the server
  writes after a cursor, and what the client makes of a response that is cut anywhere.
*/
module Sse {
  import opened Prelude
  import opened Text

  type Body(==, !new)

  datatype Event = Event(id: string, mode: string, body: Body)

  /** The JSON codec of events. */
  datatype Json = Json(encode: Event -> string, decode: string -> Option<Event>)

  /** Documents fill one line, no proper prefix of one is a document, and decoding inverts encoding. */
  ghost predicate JsonOk(json: Json)
  {
    forall e: Event ::
      && json.decode(json.encode(e)) == Some(e)
      && OneLine(json.encode(e))
      && forall n :: 0 <= n < |json.encode(e)| ==> json.decode(json.encode(e)[..n]) == None
  }

  predicate OneLine(s: string)
  {
    '\n' !in s && '\r' !in s
  }

  // ----- The server -----

  const COMPLETE := "langgraph-stream-complete"
  const TAIL := ": " + COMPLETE + "\n" + "\n"

  function IdLine(e: Event): string { "id: " + e.id }

  function ModeLine(e: Event): string { "event: " + e.mode }

  function DataLine(json: Json, e: Event): string { "data: " + json.encode(e) }

  function Frame(json: Json, e: Event): string
  {
    IdLine(e) + "\n" + (ModeLine(e) + "\n" + (DataLine(json, e) + "\n" + "\n"))
  }

  /** What the server produces for events from the k-th on. */
  function Stream(json: Json, events: seq<Event>, k: nat): string
    requires k <= |events|
    decreases |events| - k
  {
    if k == |events| then TAIL else Frame(json, events[k]) + Stream(json, events, k + 1)
  }

  /** An event as the graph produces it; ID and mode may be left to the server. */
  datatype Raw = Raw(id: string, mode: string, isError: bool, body: Body)

  /** The sequence number stands in for a missing ID, "error" for the missing mode of an error. */
  function Named(raw: Raw, sequence: nat): Event
  {
    Event(if raw.id == "" then Decimal(sequence) else raw.id,
          if raw.mode == "" && raw.isError then "error" else raw.mode,
          raw.body)
  }

  function NameAll(raws: seq<Raw>): (r: seq<Event>)
    ensures |r| == |raws| && forall i :: 0 <= i < |raws| ==> r[i] == Named(raws[i], i + 1)
  {
    seq(|raws|, i requires 0 <= i < |raws| => Named(raws[i], i + 1))
  }

  /** validateSSEEvent. */
  predicate ValidEvent(e: Event)
  {
    OneLine(e.id) && '\0' !in e.id && OneLine(e.mode)
  }

  /** The bodies of protocol errors: for an invalid event, and for a cursor that is not found. */
  datatype Problems = Problems(invalid: Event -> Body, notFound: string -> Body)

  /** An invalid event is replaced by a protocol error. */
  function Checked(e: Event, sequence: nat, problems: Problems): Event
  {
    if ValidEvent(e) then e else Event(Decimal(sequence), "error", problems.invalid(e))
  }

  function CheckAll(events: seq<Event>, problems: Problems): (r: seq<Event>)
    ensures |r| == |events| && forall i :: 0 <= i < |events| ==> r[i] == Checked(events[i], i + 1, problems)
  {
    seq(|events|, i requires 0 <= i < |events| => Checked(events[i], i + 1, problems))
  }

  /** The first event with the ID. */
  function Find(events: seq<Event>, id: string): (r: Option<nat>)
    ensures r.Some? ==> r.value < |events| && events[r.value].id == id && forall i :: 0 <= i < r.value ==> events[i].id != id
    ensures r.None? ==> forall i :: 0 <= i < |events| ==> events[i].id != id
  {
    if events == [] then None
    else
      match Find(events[..|events| - 1], id)
      case Some(i) => Some(i)
      case None => if events[|events| - 1].id == id then Some(|events| - 1) else None
  }

  // ----- The cursor on its way -----

  predicate Blank(c: char)
  {
    c == ' ' || c == '\t'
  }

  function TrimBlanks(s: string): (r: string)
    ensures |r| <= |s|
  {
    if s == "" then "" else if Blank(s[0]) then TrimBlanks(s[1..]) else if Blank(s[|s| - 1]) then TrimBlanks(s[..|s| - 1]) else s
  }

  /**
    The Last-Event-ID header of net/http: a value with control characters fails the request, any other loses its
    outer spaces and tabs.
  */
  function Carry(id: string): Option<string>
  {
    if forall c :: c in id ==> Blank(c) || (c > ' ' && c != '\U{7f}') then Some(TrimBlanks(id)) else None
  }

  /** The number of events a request with a cursor skips: all up to and including the cursor's; None if there is none. */
  function Resume(events: seq<Event>, cursor: string): (r: Option<nat>)
    ensures r.Some? ==> r.value <= |events|
  {
    if cursor == "" then Some(0)
    else match Find(events, cursor)
      case Some(k) => Some(k + 1)
      case None => None
  }

  /** What a client whose cursor is not found is told after n events. */
  function CursorError(n: nat, cursor: string, problems: Problems): Event
  {
    Event(Decimal(n + 1), "error", problems.notFound(cursor))
  }

  /** The response to a request with a cursor. */
  function Response(json: Json, raws: seq<Raw>, cursor: string, problems: Problems): string
  {
    match Resume(NameAll(raws), cursor)
    case Some(k) => Stream(json, CheckAll(NameAll(raws), problems), k)
    case None => Frame(json, CursorError(|raws|, cursor, problems)) + TAIL
  }

  /** serveStream after the headers. */
  method Serve(json: Json, raws: seq<Raw>, cursor: string, problems: Problems) returns (response: string)
    ensures response == Response(json, raws, cursor, problems)
  {
    hide Stream, Frame, Named, Checked, Find, Decimal;
    response := "";
    var found := cursor == "";
    ghost var events, first := NameAll(raws), 0;
    ghost var sent := CheckAll(events, problems);
    for i := 0 to |raws|
      invariant first <= i
      invariant !found ==> cursor != "" && response == "" && forall j :: 0 <= j < i ==> events[j].id != cursor
      invariant found ==> response + Stream(json, sent, i) == Stream(json, sent, first)
      invariant found ==> if cursor == "" then first == 0 else first > 0 && Find(events, cursor) == Some(first - 1)
    {
      var event := Named(raws[i], i + 1);
      if found {
        StreamStep(json, sent, i);
        var next := Frame(json, Checked(event, i + 1, problems));
        assert response + next + Stream(json, sent, i + 1) == response + (next + Stream(json, sent, i + 1));
        response := response + next;
      } else if event.id == cursor {
        found, first := true, i + 1;
        FindFirst(events, cursor, i);
        assert response + Stream(json, sent, first) == Stream(json, sent, first);
      }
    }
    if !found {
      FindNone(events, cursor);
      response := response + Frame(json, CursorError(|raws|, cursor, problems));
    }
    StreamEnd(json, sent);
    response := response + TAIL;
  }

  lemma FindFirst(events: seq<Event>, id: string, i: nat)
    requires i < |events| && events[i].id == id && forall j :: 0 <= j < i ==> events[j].id != id
    ensures Find(events, id) == Some(i)
  {
  }

  lemma FindNone(events: seq<Event>, id: string)
    requires forall j :: 0 <= j < |events| ==> events[j].id != id
    ensures Find(events, id) == None
  {
  }

  lemma StreamStep(json: Json, events: seq<Event>, k: nat)
    requires k < |events|
    ensures Stream(json, events, k) == Frame(json, events[k]) + Stream(json, events, k + 1)
  {
  }

  lemma StreamEnd(json: Json, events: seq<Event>)
    ensures Stream(json, events, |events|) == TAIL
  {
  }

  // ----- The client's scanner -----

  function DropCr(line: string): string
  {
    if line != "" && line[|line| - 1] == '\r' then line[..|line| - 1] else line
  }

  /** bufio.ScanLines: a last line without a line feed counts when it is not empty. */
  function Lines(text: string): seq<string>
  {
    if text == "" then []
    else
      var n := Cut(text, '\n');
      [DropCr(text[..n])] + if n == |text| then [] else Lines(text[n + 1..])
  }

  /** The index of the first c, or the length of the text. */
  function Cut(text: string, c: char): (n: nat)
    ensures n <= |text| && c !in text[..n] && (n < |text| ==> text[n] == c)
  {
    if text == "" || text[0] == c then 0
    else
      assert text == [text[0]] + text[1..];
      Cut(text[1..], c) + 1
  }

  function Trim(s: string): (r: string)
    ensures |r| <= |s|
  {
    if s == "" then "" else if s[0] == ' ' then Trim(s[1..]) else if s[|s| - 1] == ' ' then Trim(s[..|s| - 1]) else s
  }

  datatype Scan = Scan(
    mode: string, id: string, data: seq<string>, complete: bool, lastId: string, delivered: seq<Event>, failed: bool)

  function JoinLines(data: seq<string>): string
  {
    if data == [] then "" else if |data| == 1 then data[0] else data[0] + "\n" + JoinLines(data[1..])
  }

  function Clear(s: Scan): Scan
  {
    s.(id := "", mode := "", data := [])
  }

  /** A blank line, or the end of a response, dispatches the collected event unless it was the last one delivered. */
  function Dispatch(json: Json, s: Scan): Scan
  {
    if s.data == [] then Clear(s)
    else match json.decode(JoinLines(s.data))
      case None => s.(failed := true)
      case Some(decoded) =>
        var event := decoded.(
          id := if decoded.id == "" then s.id else decoded.id,
          mode := if decoded.mode == "" then s.mode else decoded.mode);
        if event.id != "" && event.id == s.lastId then Clear(s)
        else Clear(s).(delivered := s.delivered + [event], lastId := if event.id != "" then event.id else s.lastId)
  }

  /** A line's field name and value; one space after the colon is dropped. */
  function Field(line: string): (string, string)
  {
    var n := Cut(line, ':');
    var rest := if n < |line| then line[n + 1..] else "";
    (line[..n], if rest != "" && rest[0] == ' ' then rest[1..] else rest)
  }

  function Line(json: Json, s: Scan, line: string): Scan
  {
    if s.failed then s
    else if line == "" then Dispatch(json, s)
    else if line[0] == ':' then s.(complete := s.complete || Trim(line[1..]) == COMPLETE)
    else
      var field := Field(line);
      if field.0 == "id" then s.(id := field.1)
      else if field.0 == "event" then s.(mode := field.1)
      else if field.0 == "data" then s.(data := s.data + [field.1])
      else s
  }

  function ScanLines(json: Json, s: Scan, lines: seq<string>): Scan
  {
    if lines == [] then s else Line(json, ScanLines(json, s, lines[..|lines| - 1]), lines[|lines| - 1])
  }

  /** The end of a response: only a clean one dispatches what was collected and can be complete. */
  function Finish(json: Json, s: Scan, clean: bool): Scan
  {
    if s.failed || !clean then s.(complete := false)
    else
      var last := Dispatch(json, s);
      if last.failed then last.(complete := false) else last
  }

  function Fresh(lastId: string): Scan
  {
    Scan("", "", [], false, lastId, [], false)
  }

  /** scanSSE: the events delivered from one response body, the last ID, and whether the stream is complete. */
  method ScanSse(json: Json, body: string, clean: bool, lastId: string)
    returns (complete: bool, delivered: seq<Event>, newLast: string)
    ensures var r := Finish(json, ScanLines(json, Fresh(lastId), Lines(body)), clean);
            complete == r.complete && delivered == r.delivered && newLast == r.lastId
  {
    var lines := Lines(body);
    var s := Fresh(lastId);
    for i := 0 to |lines|
      invariant s == ScanLines(json, Fresh(lastId), lines[..i])
    {
      assert lines[..i + 1][..i] == lines[..i];
      s := Line(json, s, lines[i]);
    }
    assert lines[..|lines|] == lines;
    var r := Finish(json, s, clean);
    return r.complete, r.delivered, r.lastId;
  }
}
