/** What replaying the stored history does (src/components/ChatWindow.tsx,
    lines 178-312): the shape of the bubbles each kind of record appends, the
    invariant, and the commit of the new list only once every record was
    replayed. */
module History {
  import opened JsText
  import opened JsValue
  import opened Normalizer
  import opened Framing
  import opened Reducer
  import opened Transcript

  /** The pending item of a card opened for a history tool call. */
  function PendingItem(c: ToolCall): Item {
    Item(Title(c.name), Str("pending"), ArgsDescription(c.args))
  }

  /** Every card's bubble key was drawn at or after `base`. */
  ghost predicate ChainsFrom(cs: map<ToolKey, Chain>, base: nat) {
    forall t :: t in cs ==> base <= cs[t].bubbleKey
  }

  /** The pending cards opened for `calls`, in call order, under the keys
      `k`, `k + 1`, ... */
  function Cards(k: nat, calls: seq<ToolCall>): seq<Bubble> {
    if calls == [] then []
    else Cards(k, AllButLast(calls)) + [Bubble(k + |calls| - 1, Ai, ToolChain([PendingItem(Last(calls))]))]
  }

  /** One card per call: the `i`-th is the `i`-th call's pending item under
      key `k + i`. */
  lemma {:induction false} CardsSpec(k: nat, calls: seq<ToolCall>)
    ensures |Cards(k, calls)| == |calls|
    ensures forall i :: 0 <= i < |calls| ==>
      Cards(k, calls)[i] == Bubble(k + i, Ai, ToolChain([PendingItem(calls[i])]))
  {
    if calls != [] {
      var front := AllButLast(calls);
      CardsSpec(k, front);
      forall i | 0 <= i < |front|
        ensures Cards(k, calls)[i] == Bubble(k + i, Ai, ToolChain([PendingItem(calls[i])]))
      {
        assert calls[i] == front[i];
      }
    }
  }

  /** The cards of an `ai` message: one new AI bubble per call, in call order,
      each holding one pending item for its call, under consecutive new keys. */
  lemma {:induction false} OpenCardsShape(s: State, calls: seq<ToolCall>)
    ensures var t := OpenCards(s, calls);
      && t.bubbles == s.bubbles + Cards(s.counter, calls)
      && t.counter == s.counter + |calls| && t.aiContent == s.aiContent
  {
    if calls != [] {
      var front := AllButLast(calls);
      var c := Last(calls);
      var m := OpenCards(s, front);
      OpenCardsShape(s, front);
      var b := Bubble(m.counter, Ai, ToolChain([PendingItem(c)]));
      assert OpenCards(s, calls).bubbles == m.bubbles + [b];
      assert Cards(s.counter, calls) == Cards(s.counter, front) + [b];
    }
  }

  /** Opening the cards keeps the invariant. */
  lemma {:induction false} OpenCardsValid(s: State, calls: seq<ToolCall>, base: nat)
    requires Valid(s) && ChainsFrom(s.chains, base) && base <= s.counter
    ensures var t := OpenCards(s, calls);
      Valid(t) && Grows(s, t) && ChainsFrom(t.chains, base)
  {
    if calls == [] {
      GrowsRefl(s);
    } else {
      var c := Last(calls);
      var m := OpenCards(s, AllButLast(calls));
      OpenCardsValid(s, AllButLast(calls), base);
      OpenCardFacts(m, ToolKeyOf(c.id, m.counter), c.name, c.args, Str("pending"));
      GrowsTrans(s, m, OpenCards(s, calls));
    }
  }

  /** An `ai` record whose tool calls cannot be read throws before anything
      is appended. */
  lemma AiThrows(s: State, msg: Value, parse: string -> Option<Value>)
    requires !Nullish(msg) && Get(msg, "type") == Str("ai") && ExtractToolCalls(msg, parse).None?
    ensures ReplayMessage(s, msg, parse) == Outcome(s, false)
  {
  }

  /** The text bubble an `ai` record adds after its cards, under key `k`:
      one exactly when its content is truthy and not only white space. */
  function TextBubble(k: nat, content: Value): seq<Bubble> {
    if HasText(content) then [Bubble(k, Ai, Markdown(ToJsString(content)))] else []
  }

  /** An `ai` record whose tool calls can be read: one pending card per call,
      in call order, then its text bubble. */
  lemma AiShape(s: State, msg: Value, parse: string -> Option<Value>)
    requires !Nullish(msg) && Get(msg, "type") == Str("ai") && ExtractToolCalls(msg, parse).Some?
    ensures var o := ReplayMessage(s, msg, parse);
      var calls := ExtractToolCalls(msg, parse).value;
      && o.ok
      && o.st.bubbles == s.bubbles + Cards(s.counter, calls) + TextBubble(s.counter + |calls|, Get(msg, "content"))
  {
    var calls := ExtractToolCalls(msg, parse).value;
    var content := Get(msg, "content");
    AiDispatch(s, msg, parse);
    CardsThenText(s, calls, content);
  }

  /** The cards, then the text bubble. */
  lemma CardsThenText(s: State, calls: seq<ToolCall>, content: Value)
    ensures AddText(OpenCards(s, calls), content).bubbles
      == s.bubbles + Cards(s.counter, calls) + TextBubble(s.counter + |calls|, content)
  {
    var m := OpenCards(s, calls);
    OpenCardsShape(s, calls);
    AddTextShape(m, content, s.counter + |calls|);
  }

  /** The state after an `ai` record's cards, with its text bubble if any. */
  function AddText(m: State, content: Value): State {
    if HasText(content) then Append(m, Ai, Markdown(ToJsString(content))) else m
  }

  /** Adding the text appends exactly the text bubble. */
  lemma AddTextShape(m: State, content: Value, k: nat)
    requires k == m.counter
    ensures AddText(m, content).bubbles == m.bubbles + TextBubble(k, content)
  {
  }

  /** An `ai` record with readable calls opens their cards, then adds its text. */
  lemma AiDispatch(s: State, msg: Value, parse: string -> Option<Value>)
    requires !Nullish(msg) && Get(msg, "type") == Str("ai") && ExtractToolCalls(msg, parse).Some?
    ensures var m := OpenCards(s, ExtractToolCalls(msg, parse).value);
      var content := Get(msg, "content");
      ReplayMessage(s, msg, parse) == Outcome(AddText(m, content), true)
  {
    assert ReplayMessage(s, msg, parse) == ReplayAi(s, msg, parse);
  }

  /** Appending leaves every earlier position alone. */
  lemma AppendKeepsPrefix(bs: seq<Bubble>, b: Bubble, n: nat)
    requires n <= |bs|
    ensures (bs + [b])[..n] == bs[..n]
    ensures forall i :: 0 <= i < |bs| ==> (bs + [b])[i] == bs[i]
  {
  }

  /** A `tool` record always finishes, and appends a bubble only when the
      call it answers is unknown. */
  lemma ToolShape(s: State, msg: Value, parse: string -> Option<Value>, base: nat)
    requires Valid(s) && ChainsFrom(s.chains, base) && base <= s.counter
    requires !Nullish(msg) && Get(msg, "type") == Str("tool")
    ensures var o := ReplayMessage(s, msg, parse);
      var key := ToolKeyOf(ExtractToolResult(msg).id, s.counter);
      && o.ok && Valid(o.st) && Grows(s, o.st) && ChainsFrom(o.st.chains, base)
      && |o.st.bubbles| == |s.bubbles| + (if key in s.chains then 0 else 1)
  {
    var r := ExtractToolResult(msg);
    var key := ToolKeyOf(r.id, s.counter);
    ResolveBubbles(s, key, r.name, r.status, r.output);
    ResolveValid(s, key, r.name, r.status, r.output);
  }

  /** The bubble a part of a human message becomes: a file card exactly when
      the part is a text part naming a file. */
  function PartBubble(key: Key, sub: Value): Bubble {
    if Get(sub, "type") == Str("text") && Truthy(Get(sub, "filename"))
    then Bubble(key, User, FileCard(Get(sub, "filename"), Get(sub, "text")))
    else Bubble(key, User, Markdown(ContentToMarkdown(sub)))
  }

  /** The parts of a human message throw exactly when one of them is `null`. */
  lemma {:induction false} HumanPartsThrow(s: State, parts: seq<Value>)
    ensures HumanParts(s, parts).ok <==> forall i :: 0 <= i < |parts| ==> !Nullish(parts[i])
  {
    if parts != [] {
      var front := AllButLast(parts);
      HumanPartsThrow(s, front);
      HumanPartsOk(s, parts);
      NoNullStep(parts, HumanParts(s, front).ok, HumanParts(s, parts).ok);
    }
  }

  lemma NoNullStep(parts: seq<Value>, frontOk: bool, ok: bool)
    requires parts != []
    requires frontOk <==> forall i :: 0 <= i < |AllButLast(parts)| ==> !Nullish(AllButLast(parts)[i])
    requires ok == (frontOk && !Nullish(Last(parts)))
    ensures ok <==> forall i :: 0 <= i < |parts| ==> !Nullish(parts[i])
  {
    var front := AllButLast(parts);
    if !frontOk {
      var j :| 0 <= j < |front| && Nullish(front[j]);
      assert parts[j] == front[j];
    } else {
      assert forall i :: 0 <= i < |front| ==> parts[i] == front[i];
    }
  }

  lemma HumanPartStep(s: State, parts: seq<Value>)
    requires parts != [] && HumanParts(s, AllButLast(parts)).ok && !Nullish(Last(parts))
    ensures var o1 := HumanParts(s, AllButLast(parts));
      HumanParts(s, parts).st.bubbles == o1.st.bubbles + [PartBubble(o1.st.counter, Last(parts))]
      && HumanParts(s, parts).st.counter == o1.st.counter + 1
  {
  }

  lemma HumanPartsOk(s: State, parts: seq<Value>)
    requires parts != []
    ensures HumanParts(s, parts).ok == (HumanParts(s, AllButLast(parts)).ok && !Nullish(Last(parts)))
  {
  }

  /** The bubbles that parts become under consecutive keys from `k` on. */
  function PartBubbles(k: Key, parts: seq<Value>): seq<Bubble> {
    if parts == [] then [] else PartBubbles(k, AllButLast(parts)) + [PartBubble(k + |parts| - 1, Last(parts))]
  }

  lemma {:induction false} PartBubblesAt(k: Key, parts: seq<Value>, i: int)
    requires 0 <= i < |parts|
    ensures |PartBubbles(k, parts)| == |parts| && PartBubbles(k, parts)[i] == PartBubble(k + i, parts[i])
  {
    PartBubblesLength(k, AllButLast(parts));
    if i < |parts| - 1 {
      PartBubblesAt(k, AllButLast(parts), i);
    }
  }

  lemma {:induction false} PartBubblesLength(k: Key, parts: seq<Value>)
    ensures |PartBubbles(k, parts)| == |parts|
  {
    if parts != [] {
      PartBubblesLength(k, AllButLast(parts));
    }
  }

  lemma {:induction false} HumanPartsBubbles(s: State, parts: seq<Value>)
    requires forall i :: 0 <= i < |parts| ==> !Nullish(parts[i])
    ensures var o := HumanParts(s, parts);
      o.ok && o.st.bubbles == s.bubbles + PartBubbles(s.counter, parts) && o.st.counter == s.counter + |parts|
  {
    if parts != [] {
      var front := AllButLast(parts);
      assert forall i :: 0 <= i < |front| ==> !Nullish(front[i]) by {
        assert forall i :: 0 <= i < |front| ==> front[i] == parts[i];
      }
      HumanPartsBubbles(s, front);
      HumanPartsOk(s, parts);
      HumanPartStep(s, parts);
    }
  }

  /** Parts without `null`: one user bubble per part, in order, under
      consecutive new keys. */
  lemma HumanPartsShape(s: State, parts: seq<Value>)
    requires forall i :: 0 <= i < |parts| ==> !Nullish(parts[i])
    ensures var o := HumanParts(s, parts);
      && |o.st.bubbles| == |s.bubbles| + |parts| && o.st.bubbles[..|s.bubbles|] == s.bubbles
      && o.st.counter == s.counter + |parts|
      && forall i :: 0 <= i < |parts| ==> o.st.bubbles[|s.bubbles| + i] == PartBubble(s.counter + i, parts[i])
  {
    HumanPartsBubbles(s, parts);
    BubblesAfter(s.bubbles, HumanParts(s, parts).st.bubbles, s.counter, parts);
  }

  lemma BubblesAfter(base: seq<Bubble>, bs: seq<Bubble>, k: Key, parts: seq<Value>)
    requires bs == base + PartBubbles(k, parts)
    ensures |bs| == |base| + |parts| && bs[..|base|] == base
    ensures forall i :: 0 <= i < |parts| ==> bs[|base| + i] == PartBubble(k + i, parts[i])
  {
    PartBubblesLength(k, parts);
    assert bs[..|base|] == base;
    forall i | 0 <= i < |parts|
      ensures bs[|base| + i] == PartBubble(k + i, parts[i])
    {
      PartBubblesAt(k, parts, i);
    }
  }

  /** The parts keep the invariant, whether or not one of them throws. */
  lemma {:induction false} HumanPartsValid(s: State, parts: seq<Value>, base: nat)
    requires Valid(s) && ChainsFrom(s.chains, base)
    ensures var o := HumanParts(s, parts);
      Valid(o.st) && Grows(s, o.st) && ChainsFrom(o.st.chains, base)
  {
    if parts == [] {
      GrowsRefl(s);
    } else {
      var o1 := HumanParts(s, AllButLast(parts));
      HumanPartsValid(s, AllButLast(parts), base);
      if o1.ok && !Nullish(Last(parts)) {
        var p := Last(parts);
        var body := PartBubble(o1.st.counter, p).body;
        AppendFacts(o1.st, User, body);
        assert HumanParts(s, parts).st == Append(o1.st, User, body);
        GrowsTrans(s, o1.st, HumanParts(s, parts).st);
      }
    }
  }

  /** A human record whose content is not an array: exactly one user bubble
      with the markdown of its content. */
  lemma HumanTextShape(s: State, msg: Value, parse: string -> Option<Value>)
    requires Valid(s) && !Nullish(msg) && Get(msg, "type") != Str("ai") && Get(msg, "type") != Str("tool")
    requires IsHuman(msg) && !Get(msg, "content").Arr?
    ensures var o := ReplayMessage(s, msg, parse);
      && o.ok
      && o.st.bubbles == s.bubbles + [Bubble(s.counter, User, Markdown(ContentToMarkdown(Get(msg, "content"))))]
  {
    var content := Get(msg, "content");
    assert ContentToMarkdown(Coalesce(content, Str(""))) == ContentToMarkdown(content);
  }

  /** A record of any other type appends nothing. */
  lemma OtherShape(s: State, msg: Value, parse: string -> Option<Value>)
    requires !Nullish(msg) && Get(msg, "type") != Str("ai") && Get(msg, "type") != Str("tool") && !IsHuman(msg)
    ensures ReplayMessage(s, msg, parse) == Outcome(s, true)
  {
  }

  /** Every record keeps the invariant and the order of the new list. */
  lemma MessageValid(s: State, msg: Value, parse: string -> Option<Value>, base: nat)
    requires Valid(s) && ChainsFrom(s.chains, base) && base <= s.counter
    ensures var o := ReplayMessage(s, msg, parse);
      Valid(o.st) && Grows(s, o.st) && ChainsFrom(o.st.chains, base)
  {
    if Nullish(msg) {
      GrowsRefl(s);
    } else if Get(msg, "type") == Str("ai") {
      var calls := ExtractToolCalls(msg, parse);
      if calls.None? {
        GrowsRefl(s);
      } else {
        var m := OpenCards(s, calls.value);
        OpenCardsValid(s, calls.value, base);
        if HasText(Get(msg, "content")) {
          AppendFacts(m, Ai, Markdown(ToJsString(Get(msg, "content"))));
          GrowsTrans(s, m, ReplayMessage(s, msg, parse).st);
        }
      }
    } else if Get(msg, "type") == Str("tool") {
      ToolShape(s, msg, parse, base);
    } else if IsHuman(msg) {
      if Get(msg, "content").Arr? {
        HumanPartsValid(s, Get(msg, "content").elems, base);
      } else {
        AppendFacts(s, User, Markdown(ContentToMarkdown(Coalesce(Get(msg, "content"), Str("")))));
      }
    } else {
      GrowsRefl(s);
    }
  }

  lemma {:induction false} ReplayAllValid(s: State, msgs: seq<Value>, parse: string -> Option<Value>, base: nat)
    requires Valid(s) && ChainsFrom(s.chains, base) && base <= s.counter
    ensures var o := ReplayAll(s, msgs, parse);
      Valid(o.st) && Grows(s, o.st) && ChainsFrom(o.st.chains, base)
  {
    if msgs == [] {
      GrowsRefl(s);
    } else {
      var o := ReplayAll(s, AllButLast(msgs), parse);
      ReplayAllValid(s, AllButLast(msgs), parse, base);
      if o.ok {
        MessageValid(o.st, Last(msgs), parse, base);
        GrowsTrans(s, o.st, ReplayMessage(o.st, Last(msgs), parse).st);
      }
    }
  }

  /** Loading the history keeps the invariant, whether the replay finished or
      threw: a replay that threw leaves the old bubbles, which no card made
      during the replay refers to. */
  lemma ReplayValid(s: State, history: Option<Value>, parse: string -> Option<Value>)
    requires Valid(s)
    ensures Valid(Replay(s, history, parse))
    ensures Replay(s, history, parse).counter >= s.counter
  {
    if history.Some? {
      var start := s.(bubbles := [], chains := map[]);
      var h := history.value;
      var o := ReplayBody(start, h, parse);
      if h.Arr? || h.Str? {
        ReplayAllValid(start, Records(h), parse, s.counter);
      }
      if !o.ok {
        var t := o.st.(bubbles := s.bubbles);
        assert KeysOrdered(t.bubbles, t.counter);
        assert CardsShown(t);
      }
    }
  }

  /** Nothing changes when the history cannot be fetched or decoded. */
  lemma ReplayNothing(s: State, parse: string -> Option<Value>)
    ensures Replay(s, None, parse) == s
  {
  }

  /** The new list is committed only once the whole loop finished: a record
      that throws after others were replayed still leaves the bubbles as they
      were, while the keys drawn stay drawn. */
  lemma FailedReplayKeepsBubbles(s: State, msgs: seq<Value>, parse: string -> Option<Value>)
    requires exists i :: 0 <= i < |msgs| && msgs[i] == Null
    ensures Replay(s, Some(Arr(msgs)), parse).bubbles == s.bubbles
    ensures Replay(s, Some(Arr(msgs)), parse).counter >= s.counter
  {
    var i :| 0 <= i < |msgs| && msgs[i] == Null;
    var start := s.(bubbles := [], chains := map[]);
    NullStops(start, msgs, i, parse);
    assert Valid(start);
    ReplayAllValid(start, msgs, parse, s.counter);
  }

  /** A `null` record makes the replay throw. */
  lemma {:induction false} NullStops(s: State, msgs: seq<Value>, i: int, parse: string -> Option<Value>)
    requires 0 <= i < |msgs| && msgs[i] == Null
    ensures !ReplayAll(s, msgs, parse).ok
  {
    if i < |msgs| - 1 {
      NullStops(s, AllButLast(msgs), i, parse);
    }
  }

  /** When every record replays, the committed transcript depends on the
      state before loading only through its key counter and streamed text:
      the old bubbles and cards are replaced entirely. */
  lemma CommittedReplay(s: State, s': State, h: Value, parse: string -> Option<Value>)
    requires s.counter == s'.counter && s.aiContent == s'.aiContent
    requires ReplayBody(s.(bubbles := [], chains := map[]), h, parse).ok
    ensures Replay(s, Some(h), parse) == Replay(s', Some(h), parse)
  {
    assert s.(bubbles := [], chains := map[]) == s'.(bubbles := [], chains := map[]);
  }

  /** A history that is a string is iterated by its characters, none of which
      is a record of a known type: the committed list is empty and the cards
      are cleared. */
  lemma StringHistory(s: State, text: string, parse: string -> Option<Value>)
    ensures Replay(s, Some(Str(text)), parse) == s.(bubbles := [], chains := map[])
  {
    var start := s.(bubbles := [], chains := map[]);
    var msgs := Records(Str(text));
    assert forall i :: 0 <= i < |msgs| ==> msgs[i].Str?;
    StringsSkipped(start, msgs, parse);
  }

  /** Records that are strings change nothing and throw nothing. */
  lemma {:induction false} StringsSkipped(s: State, msgs: seq<Value>, parse: string -> Option<Value>)
    requires forall i :: 0 <= i < |msgs| ==> msgs[i].Str?
    ensures ReplayAll(s, msgs, parse) == Outcome(s, true)
  {
    if msgs != [] {
      StringsSkipped(s, AllButLast(msgs), parse);
      assert Last(msgs).Str?;
      assert Get(Last(msgs), "type") == Undefined && Get(Last(msgs), "role") == Undefined;
    }
  }

  /** A history that is neither an array nor a string is not iterable: it
      clears the cards but leaves the bubbles. */
  lemma NotIterable(s: State, h: Value, parse: string -> Option<Value>)
    requires !h.Arr? && !h.Str?
    ensures Replay(s, Some(h), parse) == s.(chains := map[])
  {
  }

  /** The history reads a tool's output from `output` first, where a live
      result reads it from `content` first. */
  lemma OutputPrecedence(v: Value)
    requires !Nullish(Get(v, "output")) && !Nullish(Get(v, "content"))
    ensures ExtractToolResult(v).output == Get(v, "output")
    ensures Reducer.LiveOutput(v) == Get(v, "content")
  {
  }
}
