/** Exactly-once delivery over any number of reconnects. */
module SseTheorems {
  import opened Prelude
  import opened Text
  import opened Sse
  import opened SseFacts

  /** The events the server produces on every request: valid, and none with the ID of its predecessor. */
  ghost predicate EventsOk(events: seq<Event>)
  {
    AllOk(events) && NeighboursDiffer(events)
  }

  /** The client's cursor after the first k events. */
  function CursorAt(events: seq<Event>, k: nat): string
    requires k <= |events|
  {
    if k == 0 then "" else events[k - 1].id
  }

  /** One response, cut after any number of bytes: the events from k to m are delivered, all of them if it is complete. */
  lemma {:induction false} ResponseDelivers(json: Json, events: seq<Event>, k: nat, p: string, clean: bool, s: Scan) returns (m: nat)
    requires JsonOk(json) && EventsOk(events) && k <= |events| && p <= Stream(json, events, k)
    requires AtStart(s) && s.lastId == CursorAt(events, k)
    ensures k <= m <= |events|
    ensures var r := Finish(json, ScanLines(json, s, Lines(p)), clean);
            && r.delivered == s.delivered + events[k..m]
            && r.lastId == CursorAt(events, m)
            && (r.complete ==> m == |events|)
            && (p == Stream(json, events, k) && clean ==> r.complete)
    decreases |events| - k
  {
    hide ScanLines, Lines, Finish, Frame, JsonOk, Stream, EventsOk;
    if k == |events| {
      StreamEnd(json, events);
      CutTail(json, s, p, clean);
      m := k;
    } else {
      var e, frame := events[k], Frame(json, events[k]);
      StreamStep(json, events, k);
      NextEvent(events, k);
      if |p| < |frame| {
        PrefixWithin(p, frame, Stream(json, events, k + 1));
        m := CutDelivers(json, events, k, p, clean, s);
      } else {
        var q := p[|frame|..];
        SplitFrame(p, frame, Stream(json, events, k + 1));
        WholeFrame(json, s, e, q);
        m := ResponseDelivers(json, events, k + 1, q, clean, Delivering(s, e));
        Deliveries(s, e, events, k, m);
      }
    }
  }

  lemma NextEvent(events: seq<Event>, k: nat)
    requires EventsOk(events) && k < |events|
    ensures EventOk(events[k]) && events[k].id != CursorAt(events, k)
  {
  }

  lemma Deliveries(s: Scan, e: Event, events: seq<Event>, k: nat, m: nat)
    requires k < m <= |events| && e == events[k]
    ensures s.delivered + [e] + events[k + 1..m] == s.delivered + events[k..m]
  {
    assert [e] + events[k + 1..m] == events[k..m];
  }

  /** A response that ends inside the frame of event k delivers that event or nothing. */
  lemma CutDelivers(json: Json, events: seq<Event>, k: nat, p: string, clean: bool, s: Scan) returns (m: nat)
    requires JsonOk(json) && k < |events| && EventOk(events[k]) && events[k].id != s.lastId
    requires AtStart(s) && s.lastId == CursorAt(events, k) && p <= Frame(json, events[k]) && |p| < |Frame(json, events[k])|
    ensures k <= m <= |events| && p != Stream(json, events, k)
    ensures var r := Finish(json, ScanLines(json, s, Lines(p)), clean);
            r.delivered == s.delivered + events[k..m] && r.lastId == CursorAt(events, m) && !r.complete
  {
    hide ScanLines, Lines, Finish, Frame, JsonOk, Stream;
    var e := events[k];
    StreamStep(json, events, k);
    CutFrame(json, s, e, p, clean);
    var r := Finish(json, ScanLines(json, s, Lines(p)), clean);
    m := if r.delivered == s.delivered then k else k + 1;
    assert events[k..k] == [] && events[k..k + 1] == [e];
  }

  lemma SplitFrame(p: string, a: string, b: string)
    requires p <= a + b && |p| >= |a|
    ensures p == a + p[|a|..] && p[|a|..] <= b
  {
    assert p[..|a|] == (a + b)[..|a|] == a;
    assert (a + b)[|a|..] == b;
    assert p[|a|..] == b[..|p| - |a|];
  }

  /** How much of a response arrives, and whether the body then ends without a read error. */
  datatype Connection = Connection(bytes: nat, clean: bool)

  datatype Client = Client(delivered: seq<Event>, lastId: string, complete: bool)

  /** StreamWithOptions over the connections it makes; it stops at the first complete one. */
  ghost function Session(json: Json, raws: seq<Raw>, problems: Problems, connections: seq<Connection>): Client
  {
    if connections == [] then Client([], "", false)
    else
      var before := Session(json, raws, problems, connections[..|connections| - 1]);
      if before.complete then before else Connect(json, raws, problems, before, connections[|connections| - 1])
  }

  /** One request with the client's cursor, and the part of its response that arrives. */
  ghost function Connect(json: Json, raws: seq<Raw>, problems: Problems, before: Client, c: Connection): Client
  {
    match Carry(before.lastId)
    case None => before
    case Some(cursor) => Receive(json, Response(json, raws, cursor, problems), before, c)
  }

  ghost function Receive(json: Json, response: string, before: Client, c: Connection): Client
  {
    var r := Finish(json, ScanLines(json, Fresh(before.lastId), Lines(response[..Min(c.bytes, |response|)])), c.clean);
    Client(before.delivered + r.delivered, r.lastId, r.complete)
  }

  // ----- When every pattern of cuts delivers -----

  /** A request with the cursor of event k goes on behind that event, or with it; or it cannot be made at all. */
  ghost predicate ResumesAt(events: seq<Event>, k: nat, problems: Problems)
    requires k < |events|
  {
    match Carry(events[k].id)
    case None => true
    case Some(cursor) =>
      match Resume(events, cursor)
      case Some(p) => p == k || p == k + 1
      case None => k + 2 == |events| && events[k + 1] == CursorError(|events|, cursor, problems)
  }

  /** What a server must know of its events; the last event may also happen to be the cursor error. */
  ghost predicate Deliverable(events: seq<Event>, problems: Problems)
  {
    EventsOk(events) && forall k :: 0 <= k < |events| ==> ResumesAt(events, k, problems)
  }

  /** The client has delivered exactly the first m events. */
  ghost predicate At(events: seq<Event>, client: Client, m: nat)
  {
    && m <= |events| && client.delivered == events[..m] && client.lastId == CursorAt(events, m)
    && (client.complete ==> client.delivered == events)
  }

  lemma ReceiveMore(json: Json, events: seq<Event>, before: Client, m: nat, c: Connection) returns (n: nat)
    requires JsonOk(json) && EventsOk(events) && At(events, before, m)
    ensures At(events, Receive(json, Stream(json, events, m), before, c), n)
    ensures c.clean && c.bytes >= |Stream(json, events, m)| ==> Receive(json, Stream(json, events, m), before, c).complete
  {
    hide ScanLines, Lines, Finish, JsonOk, Stream, EventsOk, Fresh, AtStart, CursorAt;
    var response := Stream(json, events, m);
    var size := Min(c.bytes, |response|);
    FreshStart(before.lastId);
    WholePrefix(response, c.bytes);
    n := ResponseDelivers(json, events, m, response[..size], c.clean, Fresh(before.lastId));
    Joined(events, m, n);
  }

  lemma FreshStart(lastId: string)
    ensures AtStart(Fresh(lastId)) && Fresh(lastId).lastId == lastId && Fresh(lastId).delivered == []
  {
  }

  lemma WholePrefix(response: string, bytes: nat)
    ensures response[..Min(bytes, |response|)] <= response
    ensures bytes >= |response| ==> response[..Min(bytes, |response|)] == response
  {
  }

  lemma Joined(events: seq<Event>, m: nat, n: nat)
    requires m <= n <= |events|
    ensures events[..m] + ([] + events[m..n]) == events[..n] && events[..|events|] == events
  {
  }

  /** A response that begins with the event the client has last. */
  lemma ReceiveAgain(json: Json, events: seq<Event>, before: Client, m: nat, c: Connection) returns (n: nat)
    requires JsonOk(json) && EventsOk(events) && At(events, before, m) && m > 0
    ensures At(events, Receive(json, Stream(json, events, m - 1), before, c), n)
    ensures c.clean && c.bytes >= |Stream(json, events, m - 1)| ==> Receive(json, Stream(json, events, m - 1), before, c).complete
  {
    hide ScanLines, Lines, Finish, JsonOk, Stream, EventsOk, Fresh, AtStart, CursorAt;
    var response := Stream(json, events, m - 1);
    var size := Min(c.bytes, |response|);
    FreshStart(before.lastId);
    WholePrefix(response, c.bytes);
    n := RepeatDelivers(json, events, m - 1, response[..size], c.clean, Fresh(before.lastId));
    Joined(events, m, n);
  }

  /** Like ResponseDelivers, for a response that begins with event k although the client has it. */
  lemma RepeatDelivers(json: Json, events: seq<Event>, k: nat, p: string, clean: bool, s: Scan) returns (m: nat)
    requires JsonOk(json) && EventsOk(events) && k < |events| && p <= Stream(json, events, k)
    requires AtStart(s) && s.lastId == CursorAt(events, k + 1)
    ensures k + 1 <= m <= |events|
    ensures var r := Finish(json, ScanLines(json, s, Lines(p)), clean);
            && r.delivered == s.delivered + events[k + 1..m]
            && r.lastId == CursorAt(events, m)
            && (r.complete ==> m == |events|)
            && (p == Stream(json, events, k) && clean ==> r.complete)
  {
    hide ScanLines, Lines, Finish, Frame, JsonOk, Stream, EventsOk;
    var e, frame := events[k], Frame(json, events[k]);
    StreamStep(json, events, k);
    NextEvent(events, k);
    if |p| < |frame| {
      PrefixWithin(p, frame, Stream(json, events, k + 1));
      CutFrame(json, s, e, p, clean);
      m := k + 1;
      assert s.delivered + events[k + 1..k + 1] == s.delivered;
    } else {
      var q := p[|frame|..];
      SplitFrame(p, frame, Stream(json, events, k + 1));
      WholeFrame(json, s, e, q);
      m := ResponseDelivers(json, events, k + 1, q, clean, Clear(s));
    }
  }

  lemma OneMore(json: Json, raws: seq<Raw>, problems: Problems, before: Client, m: nat, c: Connection) returns (n: nat)
    requires JsonOk(json) && Deliverable(NameAll(raws), problems) && At(NameAll(raws), before, m) && !before.complete
    ensures At(NameAll(raws), Connect(json, raws, problems, before, c), n)
    ensures c.clean && Carry(before.lastId).Some? && c.bytes >= |Response(json, raws, Carry(before.lastId).value, problems)| ==>
      Connect(json, raws, problems, before, c).complete
  {
    hide JsonOk, Stream, Response, EventsOk, NameAll, Receive, Carry, ResumesAt;
    var events := NameAll(raws);
    if Carry(before.lastId).None? {
      n := m;
    } else {
      ResponseGoesOn(json, raws, problems, m);
      if Response(json, raws, Carry(before.lastId).value, problems) == Stream(json, events, m) {
        n := ReceiveMore(json, events, before, m, c);
      } else {
        n := ReceiveAgain(json, events, before, m, c);
      }
    }
  }

  function Min(a: nat, b: nat): nat
  {
    if a < b then a else b
  }

  lemma Unchanged(events: seq<Event>, problems: Problems)
    requires AllOk(events)
    ensures CheckAll(events, problems) == events
  {
    forall i | 0 <= i < |events| ensures Checked(events[i], i + 1, problems) == events[i] {
      assert EventOk(events[i]);
    }
  }

  /** After m events the response goes on behind them, or repeats the last of them. */
  lemma ResponseGoesOn(json: Json, raws: seq<Raw>, problems: Problems, m: nat)
    requires Deliverable(NameAll(raws), problems) && m <= |raws| && Carry(CursorAt(NameAll(raws), m)).Some?
    ensures var response := Response(json, raws, Carry(CursorAt(NameAll(raws), m)).value, problems);
            response == Stream(json, NameAll(raws), m) || (m > 0 && response == Stream(json, NameAll(raws), m - 1))
  {
    hide Stream, Frame, Find, NeighboursDiffer, AllOk, NameAll;
    var events := NameAll(raws);
    Unchanged(events, problems);
    if m == 0 {
      assert Carry("") == Some("");
    } else {
      assert ResumesAt(events, m - 1, problems);
      if Resume(events, Carry(events[m - 1].id).value).None? {
        StreamStep(json, events, m);
        StreamEnd(json, events);
      }
    }
  }

  /**
    For every pattern of cuts and failed requests, what the client has delivered is a gap-free prefix of the events,
    and all of them once the stream is complete.
  */
  lemma {:induction false} SessionDelivers(json: Json, raws: seq<Raw>, problems: Problems, connections: seq<Connection>) returns (m: nat)
    requires JsonOk(json) && Deliverable(NameAll(raws), problems)
    ensures At(NameAll(raws), Session(json, raws, problems, connections), m)
  {
    hide JsonOk, Connect, Deliverable;
    if connections == [] {
      m := 0;
    } else {
      m := SessionDelivers(json, raws, problems, connections[..|connections| - 1]);
      var before := Session(json, raws, problems, connections[..|connections| - 1]);
      if !before.complete {
        m := OneMore(json, raws, problems, before, m, connections[|connections| - 1]);
      }
    }
  }

  /** One connection that is not cut completes the stream, whatever went before. */
  lemma UncutCompletes(json: Json, raws: seq<Raw>, problems: Problems, connections: seq<Connection>, c: Connection)
    requires JsonOk(json) && Deliverable(NameAll(raws), problems) && c.clean
    requires var cursor := Carry(Session(json, raws, problems, connections).lastId);
             cursor.Some? && c.bytes >= |Response(json, raws, cursor.value, problems)|
    ensures Session(json, raws, problems, connections + [c]).complete
    ensures Session(json, raws, problems, connections + [c]).delivered == NameAll(raws)
  {
    hide JsonOk, Connect, Deliverable, Response, Carry;
    var m := SessionDelivers(json, raws, problems, connections);
    assert (connections + [c])[..|connections|] == connections;
    var before := Session(json, raws, problems, connections);
    if !before.complete {
      var n := OneMore(json, raws, problems, before, m, c);
    }
  }

  /** No event is delivered twice: two delivered events share an ID only if it is one that cannot be sent back. */
  lemma NoDuplicates(json: Json, raws: seq<Raw>, problems: Problems, connections: seq<Connection>, i: nat, j: nat)
    requires JsonOk(json) && Deliverable(NameAll(raws), problems) && i < j < |Session(json, raws, problems, connections).delivered|
    ensures var delivered := Session(json, raws, problems, connections).delivered;
            delivered[i].id == delivered[j].id ==> Carry(delivered[i].id).None?
  {
    hide JsonOk, Session, Carry, Find;
    var m := SessionDelivers(json, raws, problems, connections);
    var events := NameAll(raws);
    assert ResumesAt(events, i, problems) && ResumesAt(events, j, problems);
    assert j == i + 1 ==> events[j - 1].id != events[j].id;
  }

  // ----- No other server delivers -----

  /** Every pattern of cuts and failed requests leaves the client with a prefix of the events, all of them at the end. */
  ghost predicate Delivers(json: Json, raws: seq<Raw>, problems: Problems)
  {
    forall connections :: InOrder(json, raws, problems, connections)
  }

  ghost predicate InOrder(json: Json, raws: seq<Raw>, problems: Problems, connections: seq<Connection>)
  {
    exists m: nat :: At(NameAll(raws), Session(json, raws, problems, connections), m)
  }

  lemma {:induction false} FramesAppend(json: Json, a: seq<Event>, b: seq<Event>)
    ensures Frames(json, a + b) == Frames(json, a) + Frames(json, b)
    decreases |a|
  {
    hide Frame;
    if a == [] {
      assert a + b == b && "" + Frames(json, b) == Frames(json, b);
    } else {
      FramesAppend(json, a[1..], b);
      assert (a + b)[0] == a[0] && (a + b)[1..] == a[1..] + b;
      assert Frame(json, a[0]) + (Frames(json, a[1..]) + Frames(json, b)) == Frame(json, a[0]) + Frames(json, a[1..]) + Frames(json, b);
    }
  }

  /** A response of whole frames from event p on that is not cut. */
  lemma ReceiveUncut(json: Json, events: seq<Event>, p: nat, before: Client)
    requires JsonOk(json) && AllOk(events) && p <= |events|
    ensures Receive(json, Stream(json, events, p), before, Connection(|Stream(json, events, p)|, true))
         == Client(before.delivered + Kept(before.lastId, events[p..]), LastId(before.lastId, events[p..]), true)
  {
    hide ScanLines, Lines, Finish, JsonOk, Stream, Frames, After, Kept, LastId, AtStart, Fresh;
    var response, rest := Stream(json, events, p), events[p..];
    StreamFrames(json, events, p);
    WholePrefix(response, |response|);
    FreshStart(before.lastId);
    FramesScan(json, Fresh(before.lastId), rest, TAIL);
    AfterKeeps(Fresh(before.lastId), rest);
    CutTail(json, After(Fresh(before.lastId), rest), TAIL, true);
    assert [] + Kept(before.lastId, rest) == Kept(before.lastId, rest);
  }

  /** A first response that is cut behind the first j frames. */
  lemma ReceiveFrames(json: Json, events: seq<Event>, j: nat)
    requires JsonOk(json) && AllOk(events) && j <= |events|
    ensures Receive(json, Stream(json, events, 0), Client([], "", false), Connection(|Frames(json, events[..j])|, false))
         == Client(Kept("", events[..j]), LastId("", events[..j]), false)
  {
    hide ScanLines, Lines, Finish, JsonOk, Stream, Frames, After, Kept, LastId, AtStart, Fresh;
    var some := Frames(json, events[..j]);
    StreamFrames(json, events, 0);
    FramesAppend(json, events[..j], events[j..]);
    assert events[0..] == events[..j] + events[j..];
    assert Stream(json, events, 0) == some + (Frames(json, events[j..]) + TAIL);
    assert Stream(json, events, 0)[..|some|] == some && some + "" == some;
    FreshStart("");
    FramesScan(json, Fresh(""), events[..j], "");
    AfterKeeps(Fresh(""), events[..j]);
    EndOfFrame(json, After(Fresh(""), events[..j]));
    assert [] + Kept("", events[..j]) == Kept("", events[..j]);
    assert [] + ([] + Kept("", events[..j])) == Kept("", events[..j]);
  }

  lemma EndOfFrame(json: Json, s: Scan)
    ensures ScanLines(json, s, Lines("")) == s && Finish(json, s, false) == s.(complete := false)
  {
  }

  lemma SessionOne(json: Json, raws: seq<Raw>, problems: Problems, c: Connection)
    ensures Session(json, raws, problems, [c])
         == Receive(json, Stream(json, CheckAll(NameAll(raws), problems), 0), Client([], "", false), c)
  {
    hide Stream, Receive, NameAll, CheckAll;
    assert [c][..0] == [];
    assert Carry("") == Some("");
  }

  lemma SessionTwo(json: Json, raws: seq<Raw>, problems: Problems, c: Connection, d: Connection)
    requires !Session(json, raws, problems, [c]).complete
    ensures Session(json, raws, problems, [c, d]) == Connect(json, raws, problems, Session(json, raws, problems, [c]), d)
  {
    hide Connect;
    assert [c, d][..1] == [c];
  }

  /** What the server sends is valid, whatever the graph produces. */
  lemma SentOk(raws: seq<Raw>, problems: Problems)
    ensures AllOk(CheckAll(NameAll(raws), problems))
  {
    hide EventOk, Checked;
    var events := NameAll(raws);
    forall i | 0 <= i < |events| ensures EventOk(Checked(events[i], i + 1, problems)) {
      CheckedOk(events[i], i + 1, problems);
    }
  }

  lemma CheckedOk(e: Event, sequence: nat, problems: Problems)
    requires e.id != ""
    ensures EventOk(Checked(e, sequence, problems))
  {
    hide Decimal;
    DecimalPlain(sequence);
  }

  lemma DecimalPlain(n: nat)
    ensures forall c :: c in Decimal(n) ==> '0' <= c <= '9'
    ensures OneLine(Decimal(n)) && '\0' !in Decimal(n)
  {
    forall c | c in Decimal(n) ensures '0' <= c <= '9' {
      assert c in DIGITS;
    }
  }

  /** A response that is not cut shows that the events are valid and that no two neighbours share an ID. */
  lemma DeliversValid(json: Json, raws: seq<Raw>, problems: Problems)
    requires JsonOk(json) && Delivers(json, raws, problems)
    ensures EventsOk(NameAll(raws))
  {
    hide JsonOk, Stream, Receive, NameAll, CheckAll, Session, EventOk, Kept;
    var events, sent := NameAll(raws), CheckAll(NameAll(raws), problems);
    var c := Connection(|Stream(json, sent, 0)|, true);
    SentOk(raws, problems);
    WholeSession(json, raws, problems, c);
    assert InOrder(json, raws, problems, [c]);
    var m: nat :| At(events, Session(json, raws, problems, [c]), m);
    KeptAll("", sent);
  }

  lemma WholeSession(json: Json, raws: seq<Raw>, problems: Problems, c: Connection)
    requires JsonOk(json) && AllOk(CheckAll(NameAll(raws), problems))
    requires c == Connection(|Stream(json, CheckAll(NameAll(raws), problems), 0)|, true)
    ensures Session(json, raws, problems, [c]).complete
    ensures Session(json, raws, problems, [c]).delivered == Kept("", CheckAll(NameAll(raws), problems))
  {
    hide JsonOk, Stream, Receive, NameAll, CheckAll, Session, AllOk, Kept;
    var sent := CheckAll(NameAll(raws), problems);
    SessionOne(json, raws, problems, c);
    ReceiveUncut(json, sent, 0, Client([], "", false));
    assert sent[0..] == sent && [] + Kept("", sent) == Kept("", sent);
  }

  /** A cut behind frame k and a response that is not cut show where the cursor of event k leads. */
  lemma DeliversResumes(json: Json, raws: seq<Raw>, problems: Problems, k: nat)
    requires JsonOk(json) && Delivers(json, raws, problems) && EventsOk(NameAll(raws)) && k < |raws|
    ensures ResumesAt(NameAll(raws), k, problems)
  {
    hide JsonOk, Stream, Receive, NameAll, CheckAll, Session, Carry, Find, Kept, Frames;
    var events := NameAll(raws);
    if Carry(events[k].id).Some? {
      var first := Connection(|Frames(json, events[..k + 1])|, false);
      var one := Client(events[..k + 1], events[k].id, false);
      CutBehind(json, raws, problems, k);
      match Resume(events, Carry(events[k].id).value) {
        case Some(p) =>
          var second := Connection(|Stream(json, events, p)|, true);
          SessionTwo(json, raws, problems, first, second);
          Unchanged(events, problems);
          ReceiveUncut(json, events, p, one);
          assert InOrder(json, raws, problems, [first, second]);
          var m: nat :| At(events, Session(json, raws, problems, [first, second]), m);
          RestDelivered(events, k, p);
        case None =>
          CursorLost(json, raws, problems, k);
          var lost := CursorError(|events|, Carry(events[k].id).value, problems);
          var second := Connection(|Frame(json, lost) + TAIL|, true);
          assert InOrder(json, raws, problems, [first, second]);
          var m: nat :| At(events, Session(json, raws, problems, [first, second]), m);
          assert events[k + 1] == (events[..k + 1] + [lost])[k + 1];
      }
    }
  }

  lemma CutBehind(json: Json, raws: seq<Raw>, problems: Problems, k: nat)
    requires JsonOk(json) && EventsOk(NameAll(raws)) && k < |raws|
    ensures Session(json, raws, problems, [Connection(|Frames(json, NameAll(raws)[..k + 1])|, false)])
         == Client(NameAll(raws)[..k + 1], NameAll(raws)[k].id, false)
  {
    hide JsonOk, Stream, Receive, NameAll, CheckAll, Session, Frames, Kept;
    var events := NameAll(raws);
    var some := events[..k + 1];
    SessionOne(json, raws, problems, Connection(|Frames(json, some)|, false));
    Unchanged(events, problems);
    ReceiveFrames(json, events, k + 1);
    assert EventOk(events[0]);
    KeptAll("", some);
  }

  /** What is delivered behind event k has the right length only from event k or k + 1 on. */
  lemma RestDelivered(events: seq<Event>, k: nat, p: nat)
    requires EventsOk(events) && k < |events| && p <= |events|
    requires events[..k + 1] + Kept(events[k].id, events[p..]) == events
    ensures p == k || p == k + 1
  {
    var rest := events[p..];
    assert NeighboursDiffer(rest) by {
      forall i | 0 < i < |rest| ensures rest[i - 1].id != rest[i].id {
        assert events[p + i - 1].id != events[p + i].id;
      }
    }
    KeptAll(events[k].id, rest);
  }

  /** A client whose cursor is not found is handed the error: that is not its own last event, or the cursor would be found. */
  lemma CursorLost(json: Json, raws: seq<Raw>, problems: Problems, k: nat)
    requires JsonOk(json) && EventsOk(NameAll(raws)) && k < |raws| && Carry(NameAll(raws)[k].id).Some?
    requires Resume(NameAll(raws), Carry(NameAll(raws)[k].id).value).None?
    ensures var lost := CursorError(|raws|, Carry(NameAll(raws)[k].id).value, problems);
            var first, second := Connection(|Frames(json, NameAll(raws)[..k + 1])|, false), Connection(|Frame(json, lost) + TAIL|, true);
            Session(json, raws, problems, [first, second]) == Client(NameAll(raws)[..k + 1] + [lost], lost.id, true)
  {
    hide JsonOk, Stream, Receive, NameAll, CheckAll, Session, Frames, Frame, Carry, Find, EventsOk, EventOk;
    var events, lost := NameAll(raws), CursorError(|raws|, Carry(NameAll(raws)[k].id).value, problems);
    var first, second := Connection(|Frames(json, events[..k + 1])|, false), Connection(|Frame(json, lost) + TAIL|, true);
    CutBehind(json, raws, problems, k);
    SessionTwo(json, raws, problems, first, second);
    NotItsOwn(events, problems, k);
    StreamStep(json, [lost], 0);
    StreamEnd(json, [lost]);
    ReceiveUncut(json, [lost], 0, Client(events[..k + 1], events[k].id, false));
    assert [lost][0..] == [lost] && [lost][1..] == [];
    assert Kept(events[k].id, [lost]) == [lost] + [];
  }

  lemma NotItsOwn(events: seq<Event>, problems: Problems, k: nat)
    requires k < |events| && Carry(events[k].id).Some? && Resume(events, Carry(events[k].id).value).None?
    ensures var lost := CursorError(|events|, Carry(events[k].id).value, problems); lost.id != events[k].id && EventOk(lost)
  {
    hide Carry, Find;
    DecimalPlain(|events| + 1);
    PlainCarries(Decimal(|events| + 1));
    assert events[k].id != Carry(events[k].id).value;
  }

  lemma PlainCarries(id: string)
    requires id != "" && forall c :: c in id ==> '0' <= c <= '9'
    ensures Carry(id) == Some(id)
  {
    assert id[0] in id && id[|id| - 1] in id;
  }

  lemma DeliversInOrder(json: Json, raws: seq<Raw>, problems: Problems, connections: seq<Connection>)
    requires JsonOk(json) && Deliverable(NameAll(raws), problems)
    ensures InOrder(json, raws, problems, connections)
  {
    hide JsonOk, Session, Deliverable, At;
    var m := SessionDelivers(json, raws, problems, connections);
  }

  /** Exactly-once delivery over every pattern of cuts holds for exactly the deliverable events. */
  lemma DeliversExactly(json: Json, raws: seq<Raw>, problems: Problems)
    requires JsonOk(json)
    ensures Delivers(json, raws, problems) <==> Deliverable(NameAll(raws), problems)
  {
    hide JsonOk, ResumesAt, EventsOk, NameAll, InOrder;
    if Deliverable(NameAll(raws), problems) {
      forall connections ensures InOrder(json, raws, problems, connections) {
        DeliversInOrder(json, raws, problems, connections);
      }
    }
    if Delivers(json, raws, problems) {
      DeliversValid(json, raws, problems);
      forall k | 0 <= k < |NameAll(raws)| ensures ResumesAt(NameAll(raws), k, problems) {
        DeliversResumes(json, raws, problems, k);
      }
    }
  }

  // ----- Which IDs are deliverable -----

  /** Distinct IDs that come back as they are sent, if they can be sent. */
  lemma DistinctDeliver(events: seq<Event>, problems: Problems)
    requires AllOk(events) && forall i, j :: 0 <= i < j < |events| ==> events[i].id != events[j].id
    requires forall i :: 0 <= i < |events| ==> Carry(events[i].id).None? || Carry(events[i].id) == Some(events[i].id)
    ensures Deliverable(events, problems)
  {
    hide Carry, Find;
    forall k | 0 <= k < |events| ensures ResumesAt(events, k, problems) {
      assert EventOk(events[k]) && events[k].id != "";
      FindFirst(events, events[k].id, k);
    }
  }

  /** Numbers the server fills in are always deliverable. */
  lemma NumberedDeliver(raws: seq<Raw>, problems: Problems)
    requires forall i :: 0 <= i < |raws| ==> raws[i].id == "" && OneLine(raws[i].mode)
    ensures Deliverable(NameAll(raws), problems)
  {
    hide Carry, Deliverable;
    var events := NameAll(raws);
    forall i | 0 <= i < |events| ensures EventOk(events[i]) && Carry(events[i].id) == Some(events[i].id) {
      DecimalPlain(i + 1);
      PlainCarries(events[i].id);
    }
    forall i, j | 0 <= i < j < |events| ensures events[i].id != events[j].id {
      if events[i].id == events[j].id { DecimalInjective(i + 1, j + 1); }
    }
    DistinctDeliver(events, problems);
  }

  /** The only event has the ID "a ": its cursor comes back as "a", and the client is handed an error for it. */
  lemma SpacedCursorLost(json: Json, mode: string, body: Body, problems: Problems) returns (connections: seq<Connection>)
    requires JsonOk(json) && OneLine(mode)
    ensures Session(json, [Raw("a ", mode, false, body)], problems, connections).delivered
         == [Event("a ", mode, body), Event("2", "error", problems.notFound("a"))]
  {
    hide JsonOk, Frame, Session, Decimal, Carry, Find;
    var raws := [Raw("a ", mode, false, body)];
    var e := Event("a ", mode, body);
    assert Decimal(2) == "2" by { TwoIsDecimal(); }
    assert NameAll(raws) == [e];
    CarriesTrimmed();
    assert Find([e], "a") == None;
    CursorLost(json, raws, problems, 0);
    connections := [Connection(|Frames(json, NameAll(raws)[..1])|, false), Connection(|Frame(json, CursorError(1, "a", problems)) + TAIL|, true)];
    assert [e][..1] == [e];
  }

  lemma TwoIsDecimal()
    ensures Decimal(2) == "2"
  {
  }

  lemma CarriesTrimmed()
    ensures Carry("a ") == Some("a")
  {
    assert "a "[..1] == "a" && TrimBlanks("a") == "a";
  }

  /** A change on the way need not lose anything: the ID " " comes back empty, and the event sent again is dropped. */
  lemma BlankDelivers(mode: string, body: Body, problems: Problems)
    requires OneLine(mode)
    ensures Carry(" ") == Some("") && Deliverable(NameAll([Raw(" ", mode, false, body)]), problems)
  {
    var raws := [Raw(" ", mode, false, body)];
    assert " "[1..] == "";
    assert NameAll(raws) == [Event(" ", mode, body)];
  }
}
