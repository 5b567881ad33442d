/**
  Exactly-once delivery: whatever bytes of each response arrive, the client delivers the
  server's events in order, without gaps and without duplicates.
*/
module SseFacts {
  import opened Prelude
  import opened Sse

  // ----- Lines -----

  lemma {:induction false} CutAt(a: string, c: char, b: string)
    requires c !in a
    ensures Cut(a + [c] + b, c) == |a|
  {
    if a == "" {
      assert (a + [c] + b)[0] == c;
    } else {
      assert a[0] in a;
      assert (a + [c] + b)[1..] == a[1..] + [c] + b;
      CutAt(a[1..], c, b);
    }
  }

  lemma {:induction false} CutNone(a: string, c: char)
    requires c !in a
    ensures Cut(a, c) == |a|
  {
    if a != "" {
      assert a[0] in a;
      CutNone(a[1..], c);
    }
  }

  lemma LinesFirst(line: string, rest: string)
    requires OneLine(line)
    ensures Lines(line + "\n" + rest) == [line] + Lines(rest)
  {
    var text := line + "\n" + rest;
    CutAt(line, '\n', rest);
    assert line + ['\n'] + rest == text;
    assert text[..|line|] == line && text[|line| + 1..] == rest;
    assert DropCr(line) == line by { if line != "" { assert line[|line| - 1] in line; } }
  }

  lemma LinesPartial(line: string)
    requires OneLine(line)
    ensures Lines(line) == if line == "" then [] else [line]
  {
    if line != "" {
      CutNone(line, '\n');
      assert line[..|line|] == line;
      assert line[|line| - 1] in line;
    }
  }

  lemma {:induction false} ScanAppend(json: Json, s: Scan, a: seq<string>, b: seq<string>)
    ensures ScanLines(json, s, a + b) == ScanLines(json, ScanLines(json, s, a), b)
  {
    hide Line;
    if b == [] {
      assert a + b == a;
    } else {
      ScanAppend(json, s, a, b[..|b| - 1]);
      assert (a + b)[..|a + b| - 1] == a + b[..|b| - 1];
    }
  }

  lemma ScanOne(json: Json, s: Scan, line: string)
    ensures ScanLines(json, s, [line]) == Line(json, s, line)
  {
    hide Line;
    assert [line][..0] == [];
    assert ScanLines(json, s, []) == s;
  }

  // ----- Field lines and their prefixes -----

  lemma FieldFull(field: string, value: string)
    requires ':' !in field
    ensures Field(field + ": " + value) == (field, value)
  {
    var line := field + ": " + value;
    CutAt(field, ':', " " + value);
    assert field + [':'] + (" " + value) == line;
    assert line[..|field|] == field && line[|field| + 1..] == " " + value && (" " + value)[1..] == value;
  }

  /** A line cut inside its name has a shorter name; cut after it, a prefix of its value. */
  lemma FieldPrefix(field: string, value: string, p: string)
    requires ':' !in field && p <= field + ": " + value
    ensures |p| <= |field| ==> p == field[..|p|] && Field(p) == (p, "")
    ensures |p| > |field| ==> Field(p).0 == field && Field(p).1 <= value
    ensures |p| > |field| && |p| < |field| + 2 + |value| ==> Field(p).1 == "" || |Field(p).1| < |value|
  {
    var line := field + ": " + value;
    if |p| <= |field| {
      assert p == line[..|p|] == field[..|p|];
      CutNone(p, ':');
      assert p[..|p|] == p;
    } else {
      FieldPrefixValue(field, value, p);
    }
  }

  lemma FieldPrefixValue(field: string, value: string, p: string)
    requires ':' !in field && p <= field + ": " + value && |p| > |field|
    ensures Field(p) == (field, if |p| == |field| + 1 then "" else value[..|p| - |field| - 2])
  {
    hide Cut;
    var tail, rest := " " + value, p[|field| + 1..];
    var line := field + ([':'] + tail);
    assert line == field + ": " + value;
    assert p == line[..|p|];
    assert p[..|field|] == field && p[|field|] == ':' && rest == tail[..|rest|];
    assert p == field + [':'] + rest;
    CutAt(field, ':', rest);
    if rest != "" {
      assert rest[0] == ' ' && rest[1..] == value[..|rest| - 1];
    }
  }

  // ----- One frame -----

  /** Between frames. */
  predicate AtStart(s: Scan)
  {
    s.data == [] && !s.failed && !s.complete
  }

  /** What validateSSEEvent and the ID the server fills in guarantee. */
  predicate EventOk(e: Event)
  {
    e.id != "" && ValidEvent(e)
  }

  function Delivering(s: Scan, e: Event): Scan
  {
    s.(id := "", mode := "", data := [], delivered := s.delivered + [e], lastId := e.id)
  }

  /** The event is delivered unless the last one delivered has its ID. */
  function Taking(s: Scan, e: Event): Scan
  {
    if e.id == s.lastId then Clear(s) else Delivering(s, e)
  }

  lemma IdLineScans(json: Json, s: Scan, e: Event)
    requires !s.failed
    ensures Line(json, s, IdLine(e)) == s.(id := e.id)
  {
    FieldFull("id", e.id);
    assert IdLine(e) == "id" + ": " + e.id && IdLine(e)[0] == 'i';
  }

  lemma ModeLineScans(json: Json, s: Scan, e: Event)
    requires !s.failed
    ensures Line(json, s, ModeLine(e)) == s.(mode := e.mode)
  {
    FieldFull("event", e.mode);
    assert ModeLine(e) == "event" + ": " + e.mode && ModeLine(e)[0] == 'e';
  }

  lemma DataLineScans(json: Json, s: Scan, e: Event)
    requires !s.failed
    ensures Line(json, s, DataLine(json, e)) == s.(data := s.data + [json.encode(e)])
  {
    FieldFull("data", json.encode(e));
    assert DataLine(json, e) == "data" + ": " + json.encode(e) && DataLine(json, e)[0] == 'd';
  }

  /** After the three lines of a frame, dispatching takes its event. */
  lemma DispatchTakes(json: Json, s: Scan, e: Event)
    requires JsonOk(json) && EventOk(e) && !s.failed && s.mode == e.mode && s.data == [json.encode(e)]
    ensures Dispatch(json, s) == Taking(s, e)
  {
    assert json.decode(json.encode(e)) == Some(e);
  }

  function Collected(json: Json, s: Scan, e: Event): Scan
  {
    s.(id := e.id, mode := e.mode, data := [json.encode(e)])
  }

  lemma ThreeLines(json: Json, s: Scan, e: Event)
    requires AtStart(s)
    ensures ScanLines(json, s, [IdLine(e)]) == s.(id := e.id)
    ensures ScanLines(json, s, [IdLine(e), ModeLine(e)]) == s.(id := e.id, mode := e.mode)
    ensures ScanLines(json, s, [IdLine(e), ModeLine(e), DataLine(json, e)]) == Collected(json, s, e)
  {
    hide Line, IdLine, ModeLine, DataLine;
    var i, m, d := IdLine(e), ModeLine(e), DataLine(json, e);
    ScanOne(json, s, i);
    IdLineScans(json, s, e);
    ScanAppend(json, s, [i], [m]);
    ScanOne(json, ScanLines(json, s, [i]), m);
    ModeLineScans(json, s.(id := e.id), e);
    assert [i] + [m] == [i, m] && [i, m] + [d] == [i, m, d];
    ScanAppend(json, s, [i, m], [d]);
    ScanOne(json, ScanLines(json, s, [i, m]), d);
    DataLineScans(json, s.(id := e.id, mode := e.mode), e);
  }

  lemma FrameLines(json: Json, e: Event, rest: string)
    requires JsonOk(json) && EventOk(e)
    ensures Lines(Frame(json, e) + rest) == [IdLine(e), ModeLine(e), DataLine(json, e)] + [""] + Lines(rest)
  {
    hide Lines;
    var i, m, d := IdLine(e), ModeLine(e), DataLine(json, e);
    assert OneLine(json.encode(e));
    assert OneLine(i) && OneLine(m) && OneLine(d);
    assert Frame(json, e) + rest == i + "\n" + (m + "\n" + (d + "\n" + ("" + "\n" + rest)));
    LinesFirst("", rest);
    LinesFirst(d, "" + "\n" + rest);
    LinesFirst(m, d + "\n" + ("" + "\n" + rest));
    LinesFirst(i, m + "\n" + (d + "\n" + ("" + "\n" + rest)));
  }

  lemma WholeFrame(json: Json, s: Scan, e: Event, rest: string)
    requires JsonOk(json) && EventOk(e) && AtStart(s)
    ensures ScanLines(json, s, Lines(Frame(json, e) + rest)) == ScanLines(json, Taking(s, e), Lines(rest))
  {
    hide Lines, JsonOk, Frame;
    var three := [IdLine(e), ModeLine(e), DataLine(json, e)];
    FrameLines(json, e, rest);
    ThreeLines(json, s, e);
    ScanAppend(json, s, three + [""], Lines(rest));
    ScanAppend(json, s, three, [""]);
    ScanOne(json, Collected(json, s, e), "");
    DispatchTakes(json, Collected(json, s, e), e);
  }

  // ----- A frame cut short -----

  /** The end of a response inside the frame of e: nothing is delivered, or e if it is new. */
  predicate NothingOr(s: Scan, e: Event, r: Scan)
  {
    && !r.complete
    && ((r.delivered == s.delivered && r.lastId == s.lastId)
        || (e.id != s.lastId && r.delivered == s.delivered + [e] && r.lastId == e.id))
  }

  lemma SplitAfter(p: string, line: string, rest: string) returns (q: string)
    requires p <= line + "\n" + rest && |p| > |line|
    ensures p == line + "\n" + q && q <= rest
  {
    var a := line + "\n";
    var whole := a + rest;
    assert whole == line + "\n" + rest;
    q := p[|a|..];
    assert p[..|a|] == whole[..|a|] == a;
    assert p == a + q;
    assert whole[|a|..] == rest && q == whole[|a|..][..|q|];
  }

  lemma PrefixWithin(p: string, a: string, b: string)
    requires p <= a + b && |p| <= |a|
    ensures p <= a
  {
    assert p == (a + b)[..|p|] == a[..|p|];
  }

  lemma PrefixOneLine(p: string, line: string)
    requires p <= line && OneLine(line)
    ensures OneLine(p)
  {
    assert forall i :: 0 <= i < |p| ==> p[i] == line[i];
  }

  /** Cutting an id or event line collects no data. */
  lemma CutHeader(json: Json, s: Scan, field: string, value: string, p: string, clean: bool)
    requires AtStart(s) && p <= field + ": " + value && (field == "id" || field == "event")
    requires OneLine(value)
    ensures var r := Finish(json, ScanLines(json, s, Lines(p)), clean);
            !r.complete && r.delivered == s.delivered && r.lastId == s.lastId
  {
    var line := field + ": " + value;
    PrefixOneLine(p, line);
    LinesPartial(p);
    if p != "" {
      ScanOne(json, s, p);
      FieldPrefix(field, value, p);
      assert p[0] == line[0] == field[0];
      if |p| <= |field| {
        assert p == field[..|p|];
        assert |p| < 4 || p[0] == 'e';
      }
    }
  }

  lemma CutData(json: Json, s: Scan, e: Event, p: string, clean: bool)
    requires JsonOk(json) && EventOk(e) && AtStart(s) && s.mode == e.mode
    requires p <= DataLine(json, e)
    ensures NothingOr(s, e, Finish(json, ScanLines(json, s, Lines(p)), clean))
  {
    var enc := json.encode(e);
    assert OneLine(enc);
    PrefixOneLine(p, DataLine(json, e));
    LinesPartial(p);
    if p != "" {
      ScanOne(json, s, p);
      assert DataLine(json, e) == "data" + ": " + enc;
      assert p[0] == DataLine(json, e)[0] == 'd';
      CutDataLine(json, s, e, p);
      DispatchTakes(json, s.(data := [enc]), e);
    }
  }

  /** A cut data line adds nothing, or a prefix of the document. */
  lemma CutDataLine(json: Json, s: Scan, e: Event, p: string)
    requires JsonOk(json) && !s.failed && s.data == [] && p <= "data" + ": " + json.encode(e) && p != "" && p[0] == 'd'
    ensures var t := Line(json, s, p);
            t == s || t == s.(data := [json.encode(e)])
            || (t == s.(data := t.data) && |t.data| == 1 && json.decode(t.data[0]) == None)
  {
    var enc := json.encode(e);
    assert json.decode(enc) == Some(e);
    FieldPrefix("data", enc, p);
    if |p| <= 4 {
      assert p == "data"[..|p|];
      if |p| == 4 {
        assert p == "data";
        assert enc[..0] == "";
        if enc != "" {
          assert json.decode(enc[..0]) == None;
        }
      }
    } else {
      var got := Field(p).1;
      assert got == enc[..|got|];
      if |got| == |enc| {
        assert got == enc;
      } else {
        assert json.decode(enc[..|got|]) == None;
      }
    }
  }

  /** A line that has arrived whole, with a part of what follows it. */
  lemma AfterLine(json: Json, s: Scan, line: string, q: string)
    requires OneLine(line)
    ensures ScanLines(json, s, Lines(line + "\n" + q)) == ScanLines(json, Line(json, s, line), Lines(q))
  {
    hide Line, Lines;
    LinesFirst(line, q);
    ScanAppend(json, s, [line], Lines(q));
    ScanOne(json, s, line);
  }

  lemma CutFrame(json: Json, s: Scan, e: Event, p: string, clean: bool)
    requires JsonOk(json) && EventOk(e) && AtStart(s)
    requires p <= Frame(json, e) && |p| < |Frame(json, e)|
    ensures NothingOr(s, e, Finish(json, ScanLines(json, s, Lines(p)), clean))
  {
    hide Lines, Line, JsonOk, IdLine, ModeLine, DataLine, ScanLines, Finish;
    var i, m, d := IdLine(e), ModeLine(e), DataLine(json, e);
    HeaderLines(json, e);
    var afterId := m + "\n" + (d + "\n" + "\n");
    if |p| <= |i| {
      PrefixWithin(p, i, "\n" + afterId);
      assert Frame(json, e) == i + ("\n" + afterId);
      CutHeader(json, s, "id", e.id, p, clean);
    } else {
      var q := SplitAfter(p, i, afterId);
      AfterLine(json, s, i, q);
      IdLineScans(json, s, e);
      CutAfterId(json, s.(id := e.id), e, q, clean);
    }
  }

  lemma HeaderLines(json: Json, e: Event)
    requires JsonOk(json) && EventOk(e)
    ensures OneLine(IdLine(e)) && OneLine(ModeLine(e)) && OneLine(DataLine(json, e))
    ensures IdLine(e) == "id" + ": " + e.id && ModeLine(e) == "event" + ": " + e.mode
  {
    assert OneLine(json.encode(e));
  }

  lemma CutAfterId(json: Json, s: Scan, e: Event, p: string, clean: bool)
    requires JsonOk(json) && EventOk(e) && AtStart(s)
    requires var m, d := ModeLine(e), DataLine(json, e); p <= m + "\n" + (d + "\n" + "\n") && |p| < |m| + |d| + 3
    ensures NothingOr(s, e, Finish(json, ScanLines(json, s, Lines(p)), clean))
  {
    hide *;
    var m, d := ModeLine(e), DataLine(json, e);
    var after := d + "\n" + "\n";
    if |p| <= |m| {
      CutMode(json, s, e, after, p, clean);
    } else {
      var q := SplitAfter(p, m, after);
      HeaderLines(json, e);
      AfterLine(json, s, m, q);
      ModeTaken(json, s, e);
      CutAfterMode(json, s.(mode := e.mode), e, q, clean);
      NothingOrMode(s, e, Finish(json, ScanLines(json, s.(mode := e.mode), Lines(q)), clean));
    }
  }

  lemma CutMode(json: Json, s: Scan, e: Event, after: string, p: string, clean: bool)
    requires JsonOk(json) && EventOk(e) && AtStart(s) && p <= ModeLine(e) + "\n" + after && |p| <= |ModeLine(e)|
    ensures NothingOr(s, e, Finish(json, ScanLines(json, s, Lines(p)), clean))
  {
    hide Lines, Line, JsonOk, IdLine, DataLine, ScanLines, Finish;
    HeaderLines(json, e);
    assert ModeLine(e) + "\n" + after == ModeLine(e) + ("\n" + after);
    PrefixWithin(p, ModeLine(e), "\n" + after);
    CutHeader(json, s, "event", e.mode, p, clean);
  }

  lemma ModeTaken(json: Json, s: Scan, e: Event)
    requires AtStart(s)
    ensures Line(json, s, ModeLine(e)) == s.(mode := e.mode) && AtStart(s.(mode := e.mode))
  {
    hide Line, ModeLine;
    ModeLineScans(json, s, e);
  }

  lemma NothingOrMode(s: Scan, e: Event, r: Scan)
    requires NothingOr(s.(mode := e.mode), e, r)
    ensures NothingOr(s, e, r)
  {
  }

  lemma CutAfterMode(json: Json, s: Scan, e: Event, p: string, clean: bool)
    requires JsonOk(json) && EventOk(e) && AtStart(s) && s.mode == e.mode
    requires var d := DataLine(json, e); p <= d + "\n" + "\n" && |p| < |d| + 2
    ensures NothingOr(s, e, Finish(json, ScanLines(json, s, Lines(p)), clean))
  {
    hide Lines, Line, JsonOk, IdLine, ModeLine, DataLine, ScanLines, Finish;
    var d := DataLine(json, e);
    HeaderLines(json, e);
    if |p| <= |d| {
      assert d + "\n" + "\n" == d + ("\n" + "\n");
      PrefixWithin(p, d, "\n" + "\n");
      CutData(json, s, e, p, clean);
    } else {
      var rest := SplitAfter(p, d, "\n");
      assert rest == "";
      AfterLine(json, s, d, rest);
      DataLineScans(json, s, e);
      CutAfterData(json, s, e, clean);
    }
  }

  lemma CutAfterData(json: Json, s: Scan, e: Event, clean: bool)
    requires JsonOk(json) && EventOk(e) && AtStart(s) && s.mode == e.mode
    ensures NothingOr(s, e, Finish(json, ScanLines(json, s.(data := s.data + [json.encode(e)]), Lines("")), clean))
  {
    assert [] + [json.encode(e)] == [json.encode(e)];
    DispatchTakes(json, s.(data := [json.encode(e)]), e);
  }

  // ----- The completion comment -----

  /** The comment line, whole or cut, only ever marks completion. */
  lemma CommentLine(json: Json, s: Scan, p: string)
    requires AtStart(s) && p <= ": " + COMPLETE && p != ""
    ensures Line(json, s, p) == s || Line(json, s, p) == s.(complete := true)
  {
    assert p[0] == (": " + COMPLETE)[0] == ':';
  }

  lemma CutTail(json: Json, s: Scan, p: string, clean: bool)
    requires AtStart(s) && p <= TAIL
    ensures var r := Finish(json, ScanLines(json, s, Lines(p)), clean);
            r.delivered == s.delivered && r.lastId == s.lastId
    ensures p == TAIL && clean ==> Finish(json, ScanLines(json, s, Lines(p)), clean).complete
  {
    hide Lines, Trim, JsonOk;
    var line := ": " + COMPLETE;
    assert OneLine(line);
    if |p| <= |line| {
      assert TAIL == line + ("\n" + "\n");
      PrefixWithin(p, line, "\n" + "\n");
      PrefixOneLine(p, line);
      LinesPartial(p);
      if p != "" {
        ScanOne(json, s, p);
        CommentLine(json, s, p);
      }
    } else {
      assert TAIL == line + "\n" + "\n";
      var rest := SplitAfter(p, line, "\n");
      AfterLine(json, s, line, rest);
      CommentLine(json, s, line);
      WholeComment(json, s);
      CommentRest(json, s.(complete := true), rest);
    }
  }

  lemma WholeComment(json: Json, s: Scan)
    requires AtStart(s)
    ensures Line(json, s, ": " + COMPLETE).complete
  {
    var line := ": " + COMPLETE;
    assert line[1..] == " " + COMPLETE && (" " + COMPLETE)[1..] == COMPLETE;
    assert Trim(COMPLETE) == COMPLETE;
    assert Trim(" " + COMPLETE) == COMPLETE;
  }

  lemma CommentRest(json: Json, s: Scan, rest: string)
    requires s.data == [] && !s.failed && rest <= "\n"
    ensures ScanLines(json, s, Lines(rest)) == s || ScanLines(json, s, Lines(rest)) == Clear(s)
  {
    if rest == "" {
      assert Lines(rest) == [];
    } else {
      assert rest == "" + "\n" + "";
      LinesFirst("", "");
      assert Lines("") == [] && [""] + Lines("") == [""];
      ScanOne(json, s, "");
    }
  }

  // ----- Whole frames -----

  function Frames(json: Json, events: seq<Event>): string
    decreases |events|
  {
    if events == [] then "" else Frame(json, events[0]) + Frames(json, events[1..])
  }

  lemma {:induction false} StreamFrames(json: Json, events: seq<Event>, k: nat)
    requires k <= |events|
    ensures Stream(json, events, k) == Frames(json, events[k..]) + TAIL
    decreases |events| - k
  {
    hide Frame;
    if k < |events| {
      StreamFrames(json, events, k + 1);
      var rest := events[k..];
      assert rest[0] == events[k] && rest[1..] == events[k + 1..];
      assert Frame(json, rest[0]) + (Frames(json, rest[1..]) + TAIL) == Frame(json, rest[0]) + Frames(json, rest[1..]) + TAIL;
    } else {
      assert events[k..] == [];
    }
  }

  /** What is left of the events when each that has the ID of its predecessor is dropped; `last` precedes the first. */
  function Kept(last: string, events: seq<Event>): (r: seq<Event>)
    ensures |r| <= |events|
    decreases |events|
  {
    if events == [] then []
    else (if events[0].id == last then [] else [events[0]]) + Kept(events[0].id, events[1..])
  }

  function LastId(last: string, events: seq<Event>): string
  {
    if events == [] then last else events[|events| - 1].id
  }

  ghost predicate AllOk(events: seq<Event>)
  {
    forall i :: 0 <= i < |events| ==> EventOk(events[i])
  }

  /** No event has the ID of its predecessor. */
  ghost predicate NeighboursDiffer(events: seq<Event>)
  {
    forall i :: 0 < i < |events| ==> events[i - 1].id != events[i].id
  }

  lemma {:induction false} KeptAll(last: string, events: seq<Event>)
    ensures |Kept(last, events)| == |events| <==> NeighboursDiffer(events) && (events != [] ==> events[0].id != last)
    ensures |Kept(last, events)| == |events| ==> Kept(last, events) == events
    ensures NeighboursDiffer(events) && events != [] && events[0].id == last ==> |Kept(last, events)| == |events| - 1
    decreases |events|
  {
    if events != [] {
      var first, rest := events[0], events[1..];
      KeptAll(first.id, rest);
      assert events == [first] + rest;
      assert NeighboursDiffer(events) <==> NeighboursDiffer(rest) && (rest != [] ==> rest[0].id != first.id) by {
        assert forall i :: 0 < i < |rest| ==> rest[i - 1] == events[i] && rest[i] == events[i + 1];
        if NeighboursDiffer(events) {
          forall i | 0 < i < |rest| ensures rest[i - 1].id != rest[i].id {
            assert events[i].id != events[i + 1].id;
          }
          if rest != [] { assert events[0].id != events[1].id; }
        }
        if NeighboursDiffer(rest) && (rest != [] ==> rest[0].id != first.id) {
          forall i | 0 < i < |events| ensures events[i - 1].id != events[i].id {
            if i > 1 { assert rest[i - 2].id != rest[i - 1].id; }
          }
        }
      }
    }
  }

  /** The scan after whole frames. */
  function After(s: Scan, events: seq<Event>): Scan
    decreases |events|
  {
    if events == [] then s else After(Taking(s, events[0]), events[1..])
  }

  lemma {:induction false} AfterKeeps(s: Scan, events: seq<Event>)
    requires AtStart(s)
    ensures AtStart(After(s, events)) && After(s, events).delivered == s.delivered + Kept(s.lastId, events)
    ensures After(s, events).lastId == LastId(s.lastId, events)
    decreases |events|
  {
    if events != [] {
      AfterKeeps(Taking(s, events[0]), events[1..]);
      assert s.delivered + [events[0]] + Kept(events[0].id, events[1..]) == s.delivered + ([events[0]] + Kept(events[0].id, events[1..]));
      assert s.delivered + ([] + Kept(events[0].id, events[1..])) == s.delivered + Kept(events[0].id, events[1..]);
    } else {
      assert s.delivered + [] == s.delivered;
    }
  }

  lemma {:induction false} FramesScan(json: Json, s: Scan, events: seq<Event>, rest: string)
    requires JsonOk(json) && AllOk(events) && AtStart(s)
    ensures ScanLines(json, s, Lines(Frames(json, events) + rest)) == ScanLines(json, After(s, events), Lines(rest))
    decreases |events|
  {
    hide Lines, JsonOk, Frame, ScanLines;
    if events == [] {
      assert "" + rest == rest;
    } else {
      var e, others := events[0], events[1..];
      assert Frame(json, e) + Frames(json, others) + rest == Frame(json, e) + (Frames(json, others) + rest);
      WholeFrame(json, s, e, Frames(json, others) + rest);
      FramesScan(json, Taking(s, e), others, rest);
    }
  }
}
