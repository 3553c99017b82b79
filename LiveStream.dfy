/** What a live response does to the transcript
    (src/components/ChatWindow.tsx, lines 357-535): each event keeps the
    invariant and the bubble order; the first token opens exactly one AI
    bubble and later tokens only extend it; a call appends exactly one card; a
    result touches only its own card; lines that carry no event are skipped
    without ending the stream; and the AI bubble's text is the in-order
    concatenation of the tokens. */
module LiveStream {
  import opened JsText
  import opened JsValue
  import opened Normalizer
  import opened Framing
  import opened Reducer
  import opened Transcript

  /** The first token of a response appends exactly one AI bubble, keyed by a
      new key, holding that token's text; the text is recorded under the key. */
  lemma FirstChunk(l: Live, content: Value)
    requires LiveValid(l) && l.aiKey.None?
    ensures var m := OnChunk(l, content);
      && m.aiKey == Some(l.st.counter)
      && m.st.bubbles == l.st.bubbles + [Bubble(l.st.counter, Ai, Markdown(ChunkText(content)))]
      && m.st.aiContent == l.st.aiContent[l.st.counter := ChunkText(content)]
      && m.st.chains == l.st.chains
      && LiveValid(m) && Grows(l.st, m.st)
  {
    var s := l.st;
    var s0 := s.(aiContent := s.aiContent[s.counter := ChunkText(content)]);
    AppendFacts(s0, Ai, Markdown(ChunkText(content)));
  }

  /** A later token: the bubble count and every bubble whose key is not the
      response's stay the same, the response's bubble shows the extended text,
      which is the old text followed by the token's. */
  lemma LaterChunk(l: Live, content: Value)
    requires LiveValid(l) && l.aiKey.Some?
    ensures var m := OnChunk(l, content);
      var k := l.aiKey.value;
      && m.aiKey == l.aiKey
      && |m.st.bubbles| == |l.st.bubbles|
      && (forall i :: 0 <= i < |l.st.bubbles| && l.st.bubbles[i].key != k ==> m.st.bubbles[i] == l.st.bubbles[i])
      && (forall i :: 0 <= i < |l.st.bubbles| && l.st.bubbles[i].key == k ==>
            m.st.bubbles[i] == l.st.bubbles[i].(body := Markdown(m.st.aiContent[k])))
      && k in m.st.aiContent && m.st.aiContent[k] == l.st.aiContent[k] + ChunkText(content)
      && m.st.chains == l.st.chains && m.st.counter == l.st.counter
      && LiveValid(m) && Grows(l.st, m.st)
  {
    var m := OnChunk(l, content);
    var k := l.aiKey.value;
    assert CardsShown(m.st) by {
      forall u, i | u in m.st.chains && 0 <= i < |m.st.bubbles| && m.st.bubbles[i].key == m.st.chains[u].bubbleKey
        ensures m.st.bubbles[i].body == ToolChain(m.st.chains[u].items)
      {
        assert l.st.chains[u].bubbleKey != k;
      }
    }
  }

  /** The card a `custom_tool_call` opens: titled with the tool's name, with
      the event's status or else `pending`, and a text for its arguments. */
  function CallItem(ev: Value, parse: string -> Option<Value>): Item {
    Item(Title(CallName(ev)), Coalesce(Get(ev, "status"), Str("pending")), ArgsDescription(CallArgs(ev, parse)))
  }

    /** The shape of what a `custom_tool_call` does, whatever the state. */
  lemma CallShape(l: Live, ev: Value, parse: string -> Option<Value>)
    requires !Nullish(ev) && Get(ev, "type") == Str("custom_tool_call")
    ensures var m := EventStep(l, ev, parse);
      var s := l.st;
      && m.aiKey == l.aiKey && m.aborted == l.aborted
      && m.st.bubbles == s.bubbles + [Bubble(s.counter, Ai, ToolChain([CallItem(ev, parse)]))]
      && m.st.chains == s.chains[EventToolKey(ev, s.counter) := Chain(s.counter, [CallItem(ev, parse)])]
      && m.st.aiContent == s.aiContent && m.st.counter == s.counter + 1
  {
    assert !IsChunk(ev);
  }

/** A `custom_tool_call` appends exactly one bubble, holding a card with
      exactly one item, and the map entry for the call id, whatever it held
      before, then points at that bubble. */
  lemma CallStep(l: Live, ev: Value, parse: string -> Option<Value>)
    requires LiveValid(l) && !Nullish(ev) && Get(ev, "type") == Str("custom_tool_call")
    ensures var m := EventStep(l, ev, parse);
      var s := l.st;
      && m.aiKey == l.aiKey && m.aborted == l.aborted
      && m.st.bubbles == s.bubbles + [Bubble(s.counter, Ai, ToolChain([CallItem(ev, parse)]))]
      && m.st.chains == s.chains[EventToolKey(ev, s.counter) := Chain(s.counter, [CallItem(ev, parse)])]
      && m.st.aiContent == s.aiContent && m.st.counter == s.counter + 1
      && LiveValid(m) && Grows(s, m.st)
  {
    var s := l.st;
    assert !IsChunk(ev);
    OpenCardFacts(s, EventToolKey(ev, s.counter), CallName(ev), CallArgs(ev, parse), Coalesce(Get(ev, "status"), Str("pending")));
  }

  /** A `custom_tool_result`: exactly one more bubble when the call id is
      unknown and the same count otherwise; only the card's own bubble changes
      among the old ones; the card's last item takes the outcome and the
      output (see ResolveItems). */
  lemma ResultStep(l: Live, ev: Value, parse: string -> Option<Value>)
    requires LiveValid(l) && !Nullish(ev) && Get(ev, "type") == Str("custom_tool_result")
    ensures var m := EventStep(l, ev, parse);
      var s := l.st;
      var key := EventToolKey(ev, s.counter);
      var bk := Target(s, key).bubbleKey;
      && m.aiKey == l.aiKey && m.aborted == l.aborted
      && m.st == Resolve(s, key, Get(ev, "name"), Get(ev, "status"), LiveOutput(ev))
      && |m.st.bubbles| == |s.bubbles| + (if key in s.chains then 0 else 1)
      && (forall i :: 0 <= i < |s.bubbles| && s.bubbles[i].key != bk ==> m.st.bubbles[i] == s.bubbles[i])
      && LiveValid(m) && Grows(s, m.st)
  {
    var s := l.st;
    var key := EventToolKey(ev, s.counter);
    assert !IsChunk(ev);
    var m := EventStep(l, ev, parse);
    ResolveBubbles(s, key, Get(ev, "name"), Get(ev, "status"), LiveOutput(ev));
    ResolveValid(s, key, Get(ev, "name"), Get(ev, "status"), LiveOutput(ev));
    if l.aiKey.Some? {
      var k := l.aiKey.value;
      var bk := Target(s, key).bubbleKey;
      assert bk != k;
      forall i | 0 <= i < |m.st.bubbles| && m.st.bubbles[i].key == k
        ensures m.st.bubbles[i].body == Markdown(m.st.aiContent[k])
      {
        assert i < |s.bubbles| && m.st.bubbles[i] == s.bubbles[i];
      }
      forall u | u in m.st.chains ensures m.st.chains[u].bubbleKey != k {
        if u != key { assert u in s.chains; }
      }
    }
  }

  /** Every event keeps the invariant and the bubble order, and a response
      keeps its AI bubble once it has one. */
  lemma EventValid(l: Live, ev: Value, parse: string -> Option<Value>)
    requires LiveValid(l)
    ensures var m := EventStep(l, ev, parse);
      LiveValid(m) && Grows(l.st, m.st) && (l.aiKey.Some? ==> m.aiKey == l.aiKey)
  {
    if Nullish(ev) {
      GrowsRefl(l.st);
    } else if IsChunk(ev) {
      if l.aiKey.None? { FirstChunk(l, Get(ev, "content")); } else { LaterChunk(l, Get(ev, "content")); }
    } else if Get(ev, "type") == Str("custom_tool_call") {
      CallStep(l, ev, parse);
    } else if Get(ev, "type") == Str("custom_tool_result") {
      ResultStep(l, ev, parse);
    } else {
      GrowsRefl(l.st);
    }
  }

  /** The same over a run of events. */
  lemma {:induction false} RunValid(l: Live, evs: seq<Value>, parse: string -> Option<Value>)
    requires LiveValid(l)
    ensures var m := RunEvents(l, evs, parse);
      LiveValid(m) && Grows(l.st, m.st) && (l.aiKey.Some? ==> m.aiKey == l.aiKey)
  {
    if evs == [] {
      GrowsRefl(l.st);
    } else {
      var m := RunEvents(l, AllButLast(evs), parse);
      RunValid(l, AllButLast(evs), parse);
      if !m.aborted {
        EventValid(m, Last(evs), parse);
        GrowsTrans(l.st, m.st, EventStep(m, Last(evs), parse).st);
      }
    }
  }

  /** After an exception nothing changes any more. */
  lemma {:induction false} AbortedStays(l: Live, evs: seq<Value>, parse: string -> Option<Value>)
    requires l.aborted
    ensures RunEvents(l, evs, parse) == l
  {
    if evs != [] {
      AbortedStays(l, AllButLast(evs), parse);
    }
  }

  /** Reducing two runs one after the other is reducing their concatenation. */
  lemma {:induction false} RunAppend(l: Live, xs: seq<Value>, ys: seq<Value>, parse: string -> Option<Value>)
    ensures RunEvents(l, xs + ys, parse) == RunEvents(RunEvents(l, xs, parse), ys, parse)
  {
    if ys == [] {
      assert xs + ys == xs;
    } else {
      assert AllButLast(xs + ys) == xs + AllButLast(ys);
      assert Last(xs + ys) == Last(ys);
      RunAppend(l, xs, AllButLast(ys), parse);
    }
  }

  /** Once a run has thrown, the events after it change nothing. */
  lemma AbortedPrefix(l: Live, xs: seq<Value>, ys: seq<Value>, parse: string -> Option<Value>)
    requires RunEvents(l, xs, parse).aborted
    ensures RunEvents(l, xs + ys, parse) == RunEvents(l, xs, parse)
  {
    RunAppend(l, xs, ys, parse);
    AbortedStays(RunEvents(l, xs, parse), ys, parse);
  }

  /** The events of consecutive lines are those of each part, in order. */
  lemma {:induction false} DecodeAppend(xs: seq<string>, ys: seq<string>, parse: string -> Option<Value>)
    ensures DecodeAll(xs + ys, parse) == DecodeAll(xs, parse) + DecodeAll(ys, parse)
  {
    if ys == [] {
      assert xs + ys == xs;
    } else {
      var front, z := AllButLast(ys), Last(ys);
      assert ys == front + [z];
      assert xs + ys == (xs + front) + [z];
      DecodeAppend(xs, front, parse);
      DecodeSnoc(xs + front, z, parse);
      DecodeSnoc(front, z, parse);
    }
  }

  /** Decoding one more line adds its event, if it carries one. */
  lemma DecodeSnoc(xs: seq<string>, line: string, parse: string -> Option<Value>)
    ensures DecodeAll(xs + [line], parse)
            == DecodeAll(xs, parse) + (if Decode(line, parse).Some? then [Decode(line, parse).value] else [])
  {
    assert AllButLast(xs + [line]) == xs && Last(xs + [line]) == line;
  }


  /** A line without an event, such as "data: [DONE]", an empty payload, a
      line that is not a data frame or one `JSON.parse` rejects, is skipped:
      the lines around it are reduced as if it were not there. */
  lemma SkippedLine(xs: seq<string>, line: string, ys: seq<string>, parse: string -> Option<Value>)
    requires Decode(line, parse).None?
    ensures DecodeAll(xs + [line] + ys, parse) == DecodeAll(xs + ys, parse)
  {
    var front := xs + [line];
    assert xs + [line] + ys == front + ys;
    DecodeAppend(front, ys, parse);
    DecodeAppend(xs, [line], parse);
    DecodeNone(line, parse);
    assert DecodeAll(front, parse) == DecodeAll(xs, parse);
    DecodeAppend(xs, ys, parse);
  }

  lemma DecodeNone(line: string, parse: string -> Option<Value>)
    requires Decode(line, parse).None?
    ensures DecodeAll([line], parse) == []
  {
    assert AllButLast([line]) == [] && Last([line]) == line;
  }

  /** A "[DONE]" frame carries no event, so the stream goes on past it. */
  lemma DoneDoesNotEnd(xs: seq<string>, lead: string, gap: string, trail: string, ys: seq<string>,
                       parse: string -> Option<Value>)
    requires Blank(lead) && Blank(gap) && Blank(trail)
    ensures DecodeAll(xs + [lead + "data:" + gap + "[DONE]" + trail] + ys, parse) == DecodeAll(xs + ys, parse)
  {
    SkippedDone(lead, gap, trail);
    SkippedLine(xs, lead + "data:" + gap + "[DONE]" + trail, ys, parse);
  }

  /** Some event of the run is `null`, which throws. */
  predicate Halted(evs: seq<Value>) {
    evs != [] && (Halted(AllButLast(evs)) || Nullish(Last(evs)))
  }

  /** The texts of the token events reduced before any exception, in order. */
  function Tokens(evs: seq<Value>): seq<string> {
    if evs == [] then []
    else
      var t := Tokens(AllButLast(evs));
      if Halted(AllButLast(evs)) || !IsChunk(Last(evs)) then t
      else t + [ChunkText(Get(Last(evs), "content"))]
  }

  /** Over a whole response: the stream ends early exactly at a `null` event;
      the response has an AI bubble exactly when a token arrived, and then
      that bubble is in the list, shows the recorded text, and that text is
      the in-order concatenation of all the tokens' texts, whatever tool
      events came between them. */
  lemma {:induction false} StreamTokens(s: State, evs: seq<Value>, parse: string -> Option<Value>)
    requires Valid(s)
    ensures var m := RunEvents(Live(s, None, false), evs, parse);
      && m.aborted == Halted(evs)
      && (m.aiKey.Some? <==> Tokens(evs) != [])
      && (m.aiKey.Some? ==>
            && m.aiKey.value in m.st.aiContent
            && m.st.aiContent[m.aiKey.value] == Concat(Tokens(evs))
            && exists i :: 0 <= i < |m.st.bubbles| && m.st.bubbles[i].key == m.aiKey.value)
  {
    var l0 := Live(s, None, false);
    if evs != [] {
      var front := AllButLast(evs);
      var e := Last(evs);
      var m := RunEvents(l0, front, parse);
      StreamTokens(s, front, parse);
      RunValid(l0, front, parse);
      if !m.aborted {
        TokenStep(m, e, Tokens(front), parse);
        if !Nullish(e) && IsChunk(e) {
          ConcatSnoc(Tokens(front), ChunkText(Get(e, "content")));
        }
      }
    }
  }

  /** One event of the stream before any exception: a token extends the
      recorded text of the response's bubble, or opens that bubble; no other
      event touches the text or the bubble's presence. */
  lemma TokenStep(m: Live, e: Value, tokens: seq<string>, parse: string -> Option<Value>)
    requires LiveValid(m) && !m.aborted
    requires m.aiKey.Some? <==> tokens != []
    requires m.aiKey.Some? ==>
      && m.aiKey.value in m.st.aiContent
      && m.st.aiContent[m.aiKey.value] == Concat(tokens)
      && exists i :: 0 <= i < |m.st.bubbles| && m.st.bubbles[i].key == m.aiKey.value
    ensures var n := EventStep(m, e, parse);
      var chunk := !Nullish(e) && IsChunk(e);
      var tokens' := if chunk then tokens + [ChunkText(Get(e, "content"))] else tokens;
      && n.aborted == Nullish(e)
      && (n.aiKey.Some? <==> tokens' != [])
      && (n.aiKey.Some? ==>
            && n.aiKey.value in n.st.aiContent
            && n.st.aiContent[n.aiKey.value] == (if chunk then Concat(tokens) + ChunkText(Get(e, "content")) else Concat(tokens))
            && exists i :: 0 <= i < |n.st.bubbles| && n.st.bubbles[i].key == n.aiKey.value)
  {
    var n := EventStep(m, e, parse);
    EventValid(m, e, parse);
    if m.aiKey.Some? {
      var i :| 0 <= i < |m.st.bubbles| && m.st.bubbles[i].key == m.aiKey.value;
      assert n.st.bubbles[i].key == m.aiKey.value;
    }
    if Nullish(e) {
    } else if IsChunk(e) {
      if m.aiKey.None? {
        FirstChunk(m, Get(e, "content"));
        assert n.st.bubbles[|m.st.bubbles|].key == m.st.counter;
      } else {
        LaterChunk(m, Get(e, "content"));
      }
    } else if Get(e, "type") == Str("custom_tool_call") {
      CallStep(m, e, parse);
    } else if Get(e, "type") == Str("custom_tool_result") {
      var key := EventToolKey(e, m.st.counter);
      ResultStep(m, e, parse);
      ResolveBubbles(m.st, key, Get(e, "name"), Get(e, "status"), LiveOutput(e));
    }
  }

  /** Sending a message appends the user's bubble under a new key, then the
      response's bubbles; the invariant holds throughout, and no bubble is
      removed or moved. */
  lemma SendFacts(s: State, text: string, response: Option<seq<string>>, parse: string -> Option<Value>)
    requires Valid(s)
    ensures var t := Send(s, text, response, parse);
      && Valid(t) && Grows(s, t)
      && |t.bubbles| > |s.bubbles|
      && t.bubbles[|s.bubbles|].key == s.counter && t.bubbles[|s.bubbles|].role == User
  {
    var s1 := Append(s, User, Markdown(text));
    AppendFacts(s, User, Markdown(text));
    if response.Some? {
      var l := Live(s1, None, false);
      RunValid(l, DecodeAll(CompleteLines(response.value), parse), parse);
      GrowsTrans(s, s1, Send(s, text, response, parse));
    }
  }

  /** The call id of an event, when it has one. */
  predicate HasId(ev: Value, id: string) {
    !Nullish(Coalesce(Get(ev, "tool_call_id"), Get(ev, "id"))) && ToJsString(Coalesce(Get(ev, "tool_call_id"), Get(ev, "id"))) == id
  }

  /** A call followed by its result: one card, whose single item keeps the
      call's title and takes the result's outcome and output. */
  lemma CallThenResult(l: Live, call: Value, res: Value, id: string, parse: string -> Option<Value>)
    requires LiveValid(l) && !l.aborted
    requires Get(call, "type") == Str("custom_tool_call") && Get(res, "type") == Str("custom_tool_result")
    requires HasId(call, id) && HasId(res, id)
    ensures var m := RunEvents(l, [call, res], parse);
      var s := l.st;
      && |m.st.bubbles| == |s.bubbles| + 1
      && Named(id) in m.st.chains
      && m.st.chains[Named(id)].bubbleKey == s.counter
      && m.st.bubbles[|s.bubbles|].key == s.counter
      && m.st.bubbles[|s.bubbles|].body == ToolChain(m.st.chains[Named(id)].items)
      && |m.st.chains[Named(id)].items| == 1
      && m.st.chains[Named(id)].items[0].title == CallItem(call, parse).title
      && m.st.chains[Named(id)].items[0].status == (if Succeeded(Get(res, "status")) then Str("success") else Str("error"))
      && m.st.chains[Named(id)].items[0].description == Describe(LiveOutput(res))
  {
    var m1 := EventStep(l, call, parse);
    CallStep(l, call, parse);
    RunTwo(l, call, res, parse);
    ResultStep(m1, res, parse);
    var key := EventToolKey(res, m1.st.counter);
    assert key == Named(id);
    ResolveBubbles(m1.st, key, Get(res, "name"), Get(res, "status"), LiveOutput(res));
    ResolveItems(m1.st, key, Get(res, "name"), Get(res, "status"), LiveOutput(res));
    var m := RunEvents(l, [call, res], parse);
    assert m.st.bubbles[|l.st.bubbles|].key == l.st.counter;
  }

  /** A result that arrives before its call: the result makes its own card,
      resolved, and the call then opens a second card, which stays as the call
      left it (pending, unless the call carries a status); the id then names
      the second card. Nothing merges the two. */
  lemma ResultBeforeCall(l: Live, res: Value, call: Value, id: string, parse: string -> Option<Value>)
    requires LiveValid(l) && !l.aborted && Named(id) !in l.st.chains
    requires Get(call, "type") == Str("custom_tool_call") && Get(res, "type") == Str("custom_tool_result")
    requires HasId(call, id) && HasId(res, id)
    ensures var m := RunEvents(l, [res, call], parse);
      var s := l.st;
      && |m.st.bubbles| == |s.bubbles| + 2
      && m.st.bubbles[|s.bubbles|].key == s.counter
      && m.st.bubbles[|s.bubbles|].body.ToolChain?
      && |m.st.bubbles[|s.bubbles|].body.items| == 1
      && m.st.bubbles[|s.bubbles|].body.items[0].status == (if Succeeded(Get(res, "status")) then Str("success") else Str("error"))
      && m.st.bubbles[|s.bubbles| + 1] == Bubble(s.counter + 1, Ai, ToolChain([CallItem(call, parse)]))
      && Named(id) in m.st.chains && m.st.chains[Named(id)] == Chain(s.counter + 1, [CallItem(call, parse)])
  {
    var m1 := EventStep(l, res, parse);
    UnknownResult(l, res, id, parse);
    assert RunEvents(l, [res], parse) == m1 by { assert AllButLast([res]) == []; }
    assert AllButLast([res, call]) == [res];
    CallStep(m1, call, parse);
  }

  /** A result for an unknown id makes its own card, in one new bubble,
      holding one resolved item. */
  lemma UnknownResult(l: Live, res: Value, id: string, parse: string -> Option<Value>)
    requires LiveValid(l) && !l.aborted && Named(id) !in l.st.chains
    requires Get(res, "type") == Str("custom_tool_result") && HasId(res, id)
    ensures var m := EventStep(l, res, parse);
      var s := l.st;
      && LiveValid(m) && !m.aborted
      && m.st.counter == s.counter + 1
      && |m.st.bubbles| == |s.bubbles| + 1
      && m.st.bubbles[|s.bubbles|].key == s.counter
      && m.st.bubbles[|s.bubbles|].body.ToolChain?
      && |m.st.bubbles[|s.bubbles|].body.items| == 1
      && m.st.bubbles[|s.bubbles|].body.items[0].status == (if Succeeded(Get(res, "status")) then Str("success") else Str("error"))
  {
    ResultStep(l, res, parse);
    EventValid(l, res, parse);
    var key := EventToolKey(res, l.st.counter);
    assert key == Named(id);
    ResolveUnknown(l.st, key, Get(res, "name"), Get(res, "status"), LiveOutput(res));
    ResolveItems(l.st, key, Get(res, "name"), Get(res, "status"), LiveOutput(res));
  }

  /** A call id used twice opens a second card; the first card stays in the
      list as it was, and the id names the second from then on. */
  lemma RepeatedCall(l: Live, c1: Value, c2: Value, id: string, parse: string -> Option<Value>)
    requires !l.aborted
    requires Get(c1, "type") == Str("custom_tool_call") && Get(c2, "type") == Str("custom_tool_call")
    requires HasId(c1, id) && HasId(c2, id)
    ensures var m := RunEvents(l, [c1, c2], parse);
      var s := l.st;
      && m.st.bubbles == s.bubbles + [Bubble(s.counter, Ai, ToolChain([CallItem(c1, parse)])),
                                      Bubble(s.counter + 1, Ai, ToolChain([CallItem(c2, parse)]))]
      && Named(id) in m.st.chains && m.st.chains[Named(id)] == Chain(s.counter + 1, [CallItem(c2, parse)])
  {
    CallShape(l, c1, parse);
    RunTwo(l, c1, c2, parse);
    TwoCalls(l, c1, c2, parse);
    IdKey(c2, id, l.st.counter + 1);
  }

  /** Two tool calls in a row open two cards, the second under its own key. */
  lemma TwoCalls(l: Live, c1: Value, c2: Value, parse: string -> Option<Value>)
    requires Get(c1, "type") == Str("custom_tool_call") && Get(c2, "type") == Str("custom_tool_call")
    ensures var m := EventStep(EventStep(l, c1, parse), c2, parse);
      var s := l.st;
      var k2 := EventToolKey(c2, s.counter + 1);
      && m.st.bubbles == s.bubbles + [Bubble(s.counter, Ai, ToolChain([CallItem(c1, parse)])),
                                      Bubble(s.counter + 1, Ai, ToolChain([CallItem(c2, parse)]))]
      && k2 in m.st.chains && m.st.chains[k2] == Chain(s.counter + 1, [CallItem(c2, parse)])
  {
    var s := l.st;
    var m1 := EventStep(l, c1, parse);
    CallShape(l, c1, parse);
    CallShape(m1, c2, parse);
    TwoCards(s, m1.st, EventStep(m1, c2, parse).st, CallItem(c1, parse), CallItem(c2, parse), EventToolKey(c2, s.counter + 1));
  }

  /** Two cards appended one after the other, the second under the key `k2`. */
  lemma TwoCards(s: State, m1: State, m: State, i1: Item, i2: Item, k2: ToolKey)
    requires m1.bubbles == s.bubbles + [Bubble(s.counter, Ai, ToolChain([i1]))] && m1.counter == s.counter + 1
    requires m.bubbles == m1.bubbles + [Bubble(m1.counter, Ai, ToolChain([i2]))]
    requires m.chains == m1.chains[k2 := Chain(m1.counter, [i2])]
    ensures m.bubbles == s.bubbles + [Bubble(s.counter, Ai, ToolChain([i1])), Bubble(s.counter + 1, Ai, ToolChain([i2]))]
    ensures k2 in m.chains && m.chains[k2] == Chain(s.counter + 1, [i2])
  {
    var b1, b2 := Bubble(s.counter, Ai, ToolChain([i1])), Bubble(s.counter + 1, Ai, ToolChain([i2]));
    assert s.bubbles + [b1] + [b2] == s.bubbles + [b1, b2];
  }

  /** An event carrying the id `id` names the card `id`. */
  lemma IdKey(ev: Value, id: string, counter: nat)
    requires HasId(ev, id)
    ensures EventToolKey(ev, counter) == Named(id)
  {
  }

  /** Two events from a stream that has not stopped, the first of which does
      not stop it either. */
  lemma RunTwo(l: Live, a: Value, b: Value, parse: string -> Option<Value>)
    requires !l.aborted && !EventStep(l, a, parse).aborted
    ensures RunEvents(l, [a, b], parse) == EventStep(EventStep(l, a, parse), b, parse)
  {
    assert RunEvents(l, [a], parse) == EventStep(l, a, parse) by { assert AllButLast([a]) == []; }
    assert AllButLast([a, b]) == [a] && Last([a, b]) == b;
  }
}
