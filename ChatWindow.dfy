/** The chat component (src/components/ChatWindow.tsx) as an object whose
    fields are its state: the bubble list, the key counter, `aiContentMap`,
    `toolChainMap` and the input box. Its methods take the steps the
    component takes, in the same order, and each is proved to reach the state
    the reducer functions describe. */
module ChatWindowState {
  import opened JsText
  import opened JsValue
  import opened Normalizer
  import opened Framing
  import opened Reducer
  import opened LiveStream

  class ChatWindow {
    var bubbles: seq<Bubble>
    var counter: nat
    var aiContent: map<Key, string>
    var chains: map<ToolKey, Chain>
    var input: string

    /** The transcript the fields hold. */
    function Current(): State
      reads this
    {
      State(bubbles, counter, aiContent, chains)
    }

    constructor ()
      ensures Current() == Initial && input == ""
    {
      bubbles, counter, aiContent, chains, input := [], 0, map[], map[], "";
    }

    /** `nextKey()`: the counter's value, after which the counter moves on. */
    method NextKey() returns (k: Key)
      modifies this`counter
      ensures k == old(counter) && counter == old(counter) + 1
    {
      k := counter;
      counter := counter + 1;
    }

    /** The input box's `onChange`. */
    method OnChange(v: Value)
      modifies this`input
      ensures input == ToJsString(Coalesce(v, Str("")))
    {
      input := ToJsString(Coalesce(v, Str("")));
    }

    /** A new card appended to `list`, which is the bubble list or, during a
        history replay, the list being built. */
    method OpenCardIn(list: seq<Bubble>, key: ToolKey, name: Value, args: Value, status: Value)
      returns (list': seq<Bubble>)
      modifies this`counter, this`chains
      ensures State(list', counter, aiContent, chains)
              == OpenCard(State(list, old(counter), aiContent, old(chains)), key, name, args, status)
    {
      var item := Item(Title(name), status, ArgsDescription(args));
      var bubbleKey := NextKey();
      chains := chains[key := Chain(bubbleKey, [item])];
      list' := list + [Bubble(bubbleKey, Ai, ToolChain([item]))];
    }

    /** A result applied to `list`: the card is synthesized when missing, a
        placeholder item added when the card is empty, and the last item
        overwritten; the card's bubble then shows the new items. */
    method ResolveIn(list: seq<Bubble>, key: ToolKey, name: Value, status: Value, output: Value)
      returns (list': seq<Bubble>)
      modifies this`counter, this`chains
      ensures State(list', counter, aiContent, chains)
              == Resolve(State(list, old(counter), aiContent, old(chains)), key, name, status, output)
    {
      list' := EnsureIn(list, key);
      var items := Settle(chains[key].items, name, status, output);
      list' := SetCardIn(list', key, items);
    }

    /** The known card `key` takes `items`, and its bubble in `list` shows them. */
    method SetCardIn(list: seq<Bubble>, key: ToolKey, items: seq<Item>) returns (list': seq<Bubble>)
      requires key in chains
      modifies this`chains
      ensures State(list', counter, aiContent, chains) == SetCard(State(list, counter, aiContent, old(chains)), key, items)
    {
      var chain := chains[key];
      chains := chains[key := chain.(items := items)];
      list' := ReplaceBody(list, chain.bubbleKey, ToolChain(items));
    }

    /** The card for `key`, made empty in a new AI bubble when missing. */
    method EnsureIn(list: seq<Bubble>, key: ToolKey) returns (list': seq<Bubble>)
      modifies this`counter, this`chains
      ensures State(list', counter, aiContent, chains) == Ensure(State(list, old(counter), aiContent, old(chains)), key)
    {
      list' := list;
      if key !in chains {
        var bubbleKey := NextKey();
        chains := chains[key := Chain(bubbleKey, [])];
        list' := list' + [Bubble(bubbleKey, Ai, ToolChain([]))];
      }
    }

    /** One parsed event of a response whose AI bubble is `aiKey`; `aborted`
        reports the exception a `null` event raises. */
    method HandleEvent(ev: Value, aiKey: Option<Key>, parse: string -> Option<Value>)
      returns (aiKey': Option<Key>, aborted: bool)
      modifies this`bubbles, this`counter, this`aiContent, this`chains
      ensures Live(Current(), aiKey', aborted) == EventStep(Live(old(Current()), aiKey, false), ev, parse)
    {
      aiKey', aborted := aiKey, false;
      if Nullish(ev) {
        aborted := true;
        return;
      }
      var ty := Get(ev, "type");
      if ty == Str("AIMessageChunk") && !Get(ev, "content").Undefined? {
        var text := ChunkText(Get(ev, "content"));
        if aiKey.None? {
          var k := NextKey();
          aiKey' := Some(k);
          aiContent := aiContent[k := text];
          bubbles := bubbles + [Bubble(k, Ai, Markdown(text))];
        } else {
          var k := aiKey.value;
          var before := if k in aiContent then aiContent[k] else "undefined";
          aiContent := aiContent[k := before + text];
          bubbles := ReplaceBody(bubbles, k, Markdown(aiContent[k]));
        }
      } else if ty == Str("custom_tool_call") {
        var key := EventToolKey(ev, counter);
        bubbles := OpenCardIn(bubbles, key, CallName(ev), CallArgs(ev, parse), Coalesce(Get(ev, "status"), Str("pending")));
      } else if ty == Str("custom_tool_result") {
        var key := EventToolKey(ev, counter);
        bubbles := ResolveIn(bubbles, key, Get(ev, "name"), Get(ev, "status"), LiveOutput(ev));
      }
    }

    /** `handleSubmit`: a blank input does nothing; otherwise the user's
        bubble is appended, the input cleared, and the response read.
        `None` stands for a request that failed before the body could be read. */
    method HandleSubmit(response: Option<seq<string>>, parse: string -> Option<Value>)
      modifies this
      ensures Trim(old(input)) == "" ==> Current() == old(Current()) && input == old(input)
      ensures Trim(old(input)) != "" ==> Current() == Send(old(Current()), Trim(old(input)), response, parse) && input == ""
    {
      var text := Trim(input);
      if text == "" {
        return;
      }
      var userKey := NextKey();
      bubbles := bubbles + [Bubble(userKey, User, Markdown(text))];
      input := "";
      ghost var s1 := Current();
      assert s1 == Append(old(Current()), User, Markdown(text));
      if response.Some? {
        ReadStream(response.value, parse);
        assert Current() == Stream(s1, response.value, parse).st;
      }
    }

    /** The read loop: each chunk is added to the line buffer, whose complete
        lines are handed on and whose rest stays buffered. An exception ends
        the reading. */
    method ReadStream(chunks: seq<string>, parse: string -> Option<Value>)
      modifies this`bubbles, this`counter, this`aiContent, this`chains
      ensures Current() == Stream(old(Current()), chunks, parse).st
    {
      ghost var l0 := Live(Current(), None, false);
      var buf := "";
      var aiKey: Option<Key> := None;
      var i := 0;
      TakeNone(chunks);
      while i < |chunks|
        invariant 0 <= i <= |chunks|
        invariant buf == Pending(chunks[..i])
        invariant Live(Current(), aiKey, false) == RunEvents(l0, DecodeAll(CompleteLines(chunks[..i]), parse), parse)
      {
        ghost var done := CompleteLines(chunks[..i]);
        var lines := Split(buf + chunks[i]);
        buf := Last(lines);
        lines := AllButLast(lines);
        ChunkStep(chunks[..i], chunks[i]);
        TakeNext(chunks, i);
        var aborted;
        aiKey, aborted := ReadLines(lines, aiKey, parse);
        DecodeAppend(done, lines, parse);
        RunAppend(l0, DecodeAll(done, parse), DecodeAll(lines, parse), parse);
        if aborted {
          StreamStops(l0, chunks, i, done + lines, parse);
          return;
        }
        i := i + 1;
      }
      TakeAll(chunks);
    }

    /** The complete lines of one chunk, decoded and reduced in order until
        an event throws. */
    method ReadLines(lines: seq<string>, aiKey: Option<Key>, parse: string -> Option<Value>)
      returns (aiKey': Option<Key>, aborted: bool)
      modifies this`bubbles, this`counter, this`aiContent, this`chains
      ensures Live(Current(), aiKey', aborted)
              == RunEvents(Live(old(Current()), aiKey, false), DecodeAll(lines, parse), parse)
    {
      ghost var l0 := Live(Current(), aiKey, false);
      aiKey', aborted := aiKey, false;
      var j := 0;
      TakeNone(lines);
      while j < |lines|
        invariant 0 <= j <= |lines|
        invariant Live(Current(), aiKey', false) == RunEvents(l0, DecodeAll(lines[..j], parse), parse)
      {
        ghost var prev := Live(Current(), aiKey', false);
        LineStep(l0, lines, j, prev, parse);
        aiKey', aborted := ReadLine(lines[j], aiKey', parse);
        if aborted {
          LinesStop(l0, lines[..j + 1], lines[j + 1..], parse);
          TakeDrop(lines, j + 1);
          return;
        }
        j := j + 1;
      }
      TakeAll(lines);
    }

    /** One complete line: its event, if it carries one. */
    method ReadLine(line: string, aiKey: Option<Key>, parse: string -> Option<Value>)
      returns (aiKey': Option<Key>, aborted: bool)
      modifies this`bubbles, this`counter, this`aiContent, this`chains
      ensures Live(Current(), aiKey', aborted) == RunEvents(Live(old(Current()), aiKey, false), DecodeAll([line], parse), parse)
    {
      ghost var prev := Live(Current(), aiKey, false);
      LineEvents(line, parse);
      aiKey', aborted := aiKey, false;
      var ev := Decode(line, parse);
      if ev.Some? {
        RunOne(prev, ev.value, parse);
        aiKey', aborted := HandleEvent(ev.value, aiKey, parse);
      }
    }

    /** One history record, appended to `list`, the list being built; `ok`
        is false when the record throws. */
    method ReplayRecord(list: seq<Bubble>, msg: Value, parse: string -> Option<Value>)
      returns (list': seq<Bubble>, ok: bool)
      modifies this`counter, this`chains
      ensures Outcome(State(list', counter, aiContent, chains), ok)
              == ReplayMessage(State(list, old(counter), aiContent, old(chains)), msg, parse)
    {
      list', ok := list, true;
      if Nullish(msg) {
        ok := false;
      } else if Get(msg, "type") == Str("ai") {
        list', ok := ReplayAiIn(list, msg, parse);
      } else if Get(msg, "type") == Str("tool") {
        var r := ExtractToolResult(msg);
        var toolId := ToolKeyOf(r.id, counter);
        list' := ResolveIn(list, toolId, r.name, r.status, r.output);
      } else if IsHuman(msg) {
        list', ok := ReplayHumanIn(list, msg);
      }
    }

    /** An `ai` record: a pending card per tool call, then its text, if any. */
    method ReplayAiIn(list: seq<Bubble>, msg: Value, parse: string -> Option<Value>)
      returns (list': seq<Bubble>, ok: bool)
      modifies this`counter, this`chains
      ensures Outcome(State(list', counter, aiContent, chains), ok)
              == ReplayAi(State(list, old(counter), aiContent, old(chains)), msg, parse)
    {
      list', ok := list, true;
      var toolCalls := ExtractToolCalls(msg, parse);
      if toolCalls.None? {
        ok := false;
        return;
      }
      ghost var s0 := State(list, counter, aiContent, chains);
      list' := OpenCardsIn(list, toolCalls.value);
      assert State(list', counter, aiContent, chains) == OpenCards(s0, toolCalls.value);
      var content := Get(msg, "content");
      if HasText(content) {
        var k := NextKey();
        list' := list' + [Bubble(k, Ai, Markdown(ToJsString(content)))];
      }
    }

    /** A pending card per tool call, in call order. */
    method OpenCardsIn(list: seq<Bubble>, calls: seq<ToolCall>) returns (list': seq<Bubble>)
      modifies this`counter, this`chains
      ensures State(list', counter, aiContent, chains) == OpenCards(State(list, old(counter), aiContent, old(chains)), calls)
    {
      ghost var s0 := State(list, counter, aiContent, chains);
      list' := list;
      var j := 0;
      TakeNone(calls);
      while j < |calls|
        invariant 0 <= j <= |calls|
        invariant State(list', counter, aiContent, chains) == OpenCards(s0, calls[..j])
      {
        var c := calls[j];
        var toolId := ToolKeyOf(c.id, counter);
        TakeNext(calls, j);
        list' := OpenCardIn(list', toolId, c.name, c.args, Str("pending"));
        j := j + 1;
      }
      TakeAll(calls);
    }

    /** A human record: a bubble per part of an array content, until a `null`
        part throws, or one bubble for any other content. */
    method ReplayHumanIn(list: seq<Bubble>, msg: Value) returns (list': seq<Bubble>, ok: bool)
      modifies this`counter
      ensures Outcome(State(list', counter, aiContent, chains), ok)
              == ReplayHuman(State(list, old(counter), aiContent, chains), msg)
    {
      list', ok := list, true;
      var content := Get(msg, "content");
      if !content.Arr? {
        var k := NextKey();
        list' := list' + [Bubble(k, User, Markdown(ContentToMarkdown(Coalesce(content, Str("")))))];
        return;
      }
      var parts := content.elems;
      ghost var s0 := State(list, counter, aiContent, chains);
      var j := 0;
      TakeNone(parts);
      while j < |parts|
        invariant 0 <= j <= |parts|
        invariant HumanParts(s0, parts[..j]) == Outcome(State(list', counter, aiContent, chains), true)
      {
        var sub := parts[j];
        TakeNext(parts, j);
        assert AllButLast(parts[..j + 1]) == parts[..j];
        if Nullish(sub) {
          ok := false;
          HumanPartsStop(s0, parts, j + 1);
          return;
        }
        var k := NextKey();
        if Get(sub, "type") == Str("text") && Truthy(Get(sub, "filename")) {
          list' := list' + [Bubble(k, User, FileCard(Get(sub, "filename"), Get(sub, "text")))];
        } else {
          list' := list' + [Bubble(k, User, Markdown(ContentToMarkdown(sub)))];
        }
        j := j + 1;
      }
      TakeAll(parts);
    }

    /** Loading the history: the records are replayed in order into a new
        list, after the card map is cleared; the list replaces the bubbles
        once every record was replayed, and an exception leaves the bubbles
        as they were. `None` stands for a failed request or JSON body. */
    method LoadHistory(history: Option<Value>, parse: string -> Option<Value>)
      modifies this`bubbles, this`counter, this`chains
      ensures Current() == Replay(old(Current()), history, parse)
    {
      if history.None? {
        return;
      }
      var h := history.value;
      var newBubbles: seq<Bubble> := [];
      chains := map[];
      if !h.Arr? && !h.Str? {
        return;
      }
      var msgs := Records(h);
      ghost var start := State([], counter, aiContent, map[]);
      var i := 0;
      TakeNone(msgs);
      while i < |msgs|
        invariant 0 <= i <= |msgs|
        invariant ReplayAll(start, msgs[..i], parse) == Outcome(State(newBubbles, counter, aiContent, chains), true)
        invariant bubbles == old(bubbles)
      {
        var ok;
        TakeNext(msgs, i);
        newBubbles, ok := ReplayRecord(newBubbles, msgs[i], parse);
        if !ok {
          ReplayStops(start, msgs, i + 1, parse);
          return;
        }
        i := i + 1;
      }
      TakeAll(msgs);
      bubbles := newBubbles;
    }
  }

  /** The stream stopped by an exception on the lines handed so far is the
      whole response's stream: the lines still to come change nothing. */
  lemma StreamStops(l0: Live, chunks: seq<string>, i: int, handed: seq<string>, parse: string -> Option<Value>)
    requires 0 <= i < |chunks|
    requires handed <= CompleteLines(chunks[..i + 1])
    requires RunEvents(l0, DecodeAll(handed, parse), parse).aborted
    ensures RunEvents(l0, DecodeAll(CompleteLines(chunks), parse), parse) == RunEvents(l0, DecodeAll(handed, parse), parse)
  {
    CompleteLinesOfPrefix(chunks, i + 1);
    PrefixTrans(handed, CompleteLines(chunks[..i + 1]), CompleteLines(chunks));
    LinesAfterStop(l0, handed, CompleteLines(chunks), parse);
  }

  lemma PrefixTrans<T>(a: seq<T>, b: seq<T>, c: seq<T>)
    requires a <= b && b <= c
    ensures a <= c
  {
    assert c[..|a|] == c[..|b|][..|a|];
  }

  /** Lines that follow the ones on which reading threw change nothing. */
  lemma LinesAfterStop(l0: Live, handed: seq<string>, all: seq<string>, parse: string -> Option<Value>)
    requires handed <= all
    requires RunEvents(l0, DecodeAll(handed, parse), parse).aborted
    ensures RunEvents(l0, DecodeAll(all, parse), parse) == RunEvents(l0, DecodeAll(handed, parse), parse)
  {
    assert all == handed + all[|handed|..];
    LinesStop(l0, handed, all[|handed|..], parse);
  }

  /** A human message's parts: a `null` part ends them where it stands,
      and the parts after it change nothing. */
  lemma {:induction false} HumanPartsStop(s: State, parts: seq<Value>, n: int)
    requires 0 <= n <= |parts| && !HumanParts(s, parts[..n]).ok
    ensures HumanParts(s, parts) == HumanParts(s, parts[..n])
  {
    if n < |parts| {
      assert AllButLast(parts)[..n] == parts[..n];
      HumanPartsStop(s, AllButLast(parts), n);
    } else {
      assert parts[..n] == parts;
    }
  }

  /** A replay that threw on the records so far throws on the whole history,
      in the state where it threw. */
  lemma {:induction false} ReplayStops(s: State, msgs: seq<Value>, n: int, parse: string -> Option<Value>)
    requires 0 <= n <= |msgs| && !ReplayAll(s, msgs[..n], parse).ok
    ensures ReplayAll(s, msgs, parse) == ReplayAll(s, msgs[..n], parse)
  {
    if n < |msgs| {
      assert AllButLast(msgs)[..n] == msgs[..n];
      ReplayStops(s, AllButLast(msgs), n, parse);
    } else {
      assert msgs[..n] == msgs;
    }
  }

  /** The stream after one more line: the events of that line reduced
      after those of the lines before it. */
  lemma LineStep(l0: Live, lines: seq<string>, j: int, prev: Live, parse: string -> Option<Value>)
    requires 0 <= j < |lines| && prev == RunEvents(l0, DecodeAll(lines[..j], parse), parse) && !prev.aborted
    ensures RunEvents(l0, DecodeAll(lines[..j + 1], parse), parse) == RunEvents(prev, DecodeAll([lines[j]], parse), parse)
  {
    TakeNext(lines, j);
    DecodeAppend(lines[..j], [lines[j]], parse);
    RunAppend(l0, DecodeAll(lines[..j], parse), DecodeAll([lines[j]], parse), parse);
  }

  /** One line's events: none, or the one its `data:` payload parses to. */
  lemma LineEvents(line: string, parse: string -> Option<Value>)
    ensures DecodeAll([line], parse) == match Decode(line, parse) case None => [] case Some(v) => [v]
  {
    assert AllButLast([line]) == [] && Last([line]) == line;
  }

  /** A single event, before any exception, is one step. */
  lemma RunOne(l: Live, ev: Value, parse: string -> Option<Value>)
    requires !l.aborted
    ensures RunEvents(l, [ev], parse) == EventStep(l, ev, parse)
  {
    assert AllButLast([ev]) == [] && Last([ev]) == ev;
  }

  /** A stream that threw on the lines `front` ends there. */
  lemma LinesStop(l0: Live, front: seq<string>, back: seq<string>, parse: string -> Option<Value>)
    requires RunEvents(l0, DecodeAll(front, parse), parse).aborted
    ensures RunEvents(l0, DecodeAll(front + back, parse), parse) == RunEvents(l0, DecodeAll(front, parse), parse)
  {
    DecodeAppend(front, back, parse);
    AbortedPrefix(l0, DecodeAll(front, parse), DecodeAll(back, parse), parse);
  }

  /** Reducing one more event, before any exception, takes one more step. */
  lemma RunSnoc(l: Live, evs: seq<Value>, ev: Value, parse: string -> Option<Value>)
    requires !RunEvents(l, evs, parse).aborted
    ensures RunEvents(l, evs + [ev], parse) == EventStep(RunEvents(l, evs, parse), ev, parse)
  {
    assert AllButLast(evs + [ev]) == evs && Last(evs + [ev]) == ev;
  }

  lemma TakeNone<T>(s: seq<T>)
    ensures s[..0] == []
  {
  }

  lemma TakeNext<T>(s: seq<T>, i: int)
    requires 0 <= i < |s|
    ensures s[..i + 1] == s[..i] + [s[i]] && AllButLast(s[..i + 1]) == s[..i] && Last(s[..i + 1]) == s[i]
  {
  }

  lemma TakeDrop<T>(s: seq<T>, n: int)
    requires 0 <= n <= |s|
    ensures s[..n] + s[n..] == s
  {
  }

  lemma TakeAll<T>(s: seq<T>)
    ensures s[..|s|] == s
  {
  }
}
