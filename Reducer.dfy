/** The transcript of the chat component (src/components/ChatWindow.tsx) as a
    value: the bubble list, the key counter behind `nextKey`, the texts being
    streamed into AI bubbles (`aiContentMap`) and the tool cards by call id
    (`toolChainMap`), together with the three ways the component changes them:
    replaying the stored history, reducing the events of a live response, and
    submitting a message. The component itself, which performs these updates
    step by step, is the class in ChatWindow.dfy. */
module Reducer {
  import opened JsText
  import opened JsValue
  import opened Normalizer
  import opened Framing

  /** A bubble key `k-<n>` is identified with the counter value n it was made of. */
  type Key = nat

  datatype Role = User | Ai

  /** One step of a tool card: its title, its status (`pending`, `success`,
      `error`, or whatever status a live call event carries) and its text. */
  datatype Item = Item(title: string, status: Value, description: string)

  /** What a bubble shows: markdown text, a tool card, or a file card. */
  datatype Body =
    | Markdown(text: string)
    | ToolChain(items: seq<Item>)
    | FileCard(fileName: Value, fileText: Value)

  datatype Bubble = Bubble(key: Key, role: Role, body: Body)

  /** The key of a `toolChainMap` entry: a call id, coerced to a property name
      as JavaScript does, or one of the fallback ids the component makes up
      from the clock and a random number, here numbered by the counter value at
      the time, which no other fallback id shares. */
  datatype ToolKey = Named(id: string) | Generated(serial: nat)

  datatype Chain = Chain(bubbleKey: Key, items: seq<Item>)

  datatype State = State(
    bubbles: seq<Bubble>,
    counter: nat,
    aiContent: map<Key, string>,
    chains: map<ToolKey, Chain>)

  /** The state when the component mounts. */
  const Initial := State([], 0, map[], map[])

  /** `nextKey()` and a push of the bubble it names. */
  function Append(s: State, role: Role, body: Body): State {
    s.(bubbles := s.bubbles + [Bubble(s.counter, role, body)], counter := s.counter + 1)
  }

  /** `prev.map(b => b.key === k ? {...b, body} : b)` */
  function ReplaceBody(bs: seq<Bubble>, k: Key, body: Body): (r: seq<Bubble>)
    ensures |r| == |bs|
  {
    seq(|bs|, i requires 0 <= i < |bs| => if bs[i].key == k then bs[i].(body := body) else bs[i])
  }

  /** `id ?? <fallback>`, used as a property name. */
  function ToolKeyOf(id: Value, counter: nat): ToolKey {
    if Nullish(id) then Generated(counter) else Named(ToJsString(id))
  }

  /* ---------------- tool cards ---------------- */

  function Title(name: Value): string {
    "调用工具：" + ToJsString(name)
  }

  /** A card's text for its arguments: "无参数传入" for falsy arguments and for
      an object or array without entries, the pretty-printed arguments otherwise. */
  function ArgsDescription(args: Value): string {
    if !Truthy(args) || (args.Obj? && args.props == []) || (args.Arr? && args.elems == [])
    then "无参数传入"
    else "参数：\n" + Pretty(args)
  }

  /** A new card for call `key` holding one item, in a new AI bubble; the map
      entry for `key` then points at this bubble, whatever it held before. */
  function OpenCard(s: State, key: ToolKey, name: Value, args: Value, status: Value): State {
    var item := Item(Title(name), status, ArgsDescription(args));
    Append(s.(chains := s.chains[key := Chain(s.counter, [item])]), Ai, ToolChain([item]))
  }

  /** The item a result creates in a card that has none. */
  function Placeholder(name: Value): Item {
    Item(if Truthy(name) then Title(name) else "工具调用", Str("pending"), "等待结果…")
  }

  /** `String(status ?? "success").toLowerCase() === "success"` */
  predicate Succeeded(status: Value) {
    LowerAscii(ToJsString(Coalesce(status, Str("success")))) == "success"
  }

  function Describe(output: Value): string {
    if output.Str? then output.s else Pretty(output)
  }

  /** A result for call `key`: a card is synthesized when there is none, a
      placeholder item when the card is empty, and the last item takes the
      outcome and the output; the card's bubble is replaced to show it. */
  function Resolve(s: State, key: ToolKey, name: Value, status: Value, output: Value): State {
    var s1 := Ensure(s, key);
    SetCard(s1, key, Settle(s1.chains[key].items, name, status, output))
  }

  /** The card for `key`, synthesized empty in a new AI bubble when there is none. */
  function Ensure(s: State, key: ToolKey): (r: State)
    ensures key in r.chains
  {
    if key in s.chains then s
    else Append(s.(chains := s.chains[key := Chain(s.counter, [])]), Ai, ToolChain([]))
  }

  /** A card's items after a result: a placeholder first when there is none,
      then the last item takes the outcome and the output. */
  function Settle(items: seq<Item>, name: Value, status: Value, output: Value): seq<Item> {
    var full := if items == [] then [Placeholder(name)] else items;
    var n := |full| - 1;
    full[n := full[n].(status := if Succeeded(status) then Str("success") else Str("error"),
                       description := Describe(output))]
  }

  /** The known card `key` now holds `items`, and its bubble is replaced to show them. */
  function SetCard(s: State, key: ToolKey, items: seq<Item>): State
    requires key in s.chains
  {
    var chain := s.chains[key];
    s.(chains := s.chains[key := chain.(items := items)],
       bubbles := ReplaceBody(s.bubbles, chain.bubbleKey, ToolChain(items)))
  }

  /* ---------------- live events ---------------- */

  /** The state while a response streams in: the transcript, the key of this
      response's AI bubble once its first token arrived, and whether an
      exception ended the stream. */
  datatype Live = Live(st: State, aiKey: Option<Key>, aborted: bool)

  /** `String(ev.content ?? "")` */
  function ChunkText(content: Value): string {
    ToJsString(Coalesce(content, Str("")))
  }

  /** An `AIMessageChunk`: the first one of a response opens its AI bubble,
      later ones extend its text and replace that bubble only. */
  function OnChunk(l: Live, content: Value): Live {
    var s := l.st;
    var text := ChunkText(content);
    match l.aiKey
    case None =>
      Live(Append(s.(aiContent := s.aiContent[s.counter := text]), Ai, Markdown(text)), Some(s.counter), l.aborted)
    case Some(k) =>
      var t := (if k in s.aiContent then s.aiContent[k] else "undefined") + text;
      Live(s.(aiContent := s.aiContent[k := t], bubbles := ReplaceBody(s.bubbles, k, Markdown(t))), l.aiKey, l.aborted)
  }

  /** `ev.tool_call_id ?? ev.id ?? <fallback>` */
  function EventToolKey(ev: Value, counter: nat): ToolKey {
    ToolKeyOf(Coalesce(Get(ev, "tool_call_id"), Get(ev, "id")), counter)
  }

  function CallName(ev: Value): Value {
    Coalesce(Get(ev, "name"), Coalesce(Get(Get(ev, "function"), "name"), Coalesce(Get(ev, "tool_name"), Str("Tool call"))))
  }

  function CallArgs(ev: Value, parse: string -> Option<Value>): Value {
    ParseArgs(Coalesce(Get(ev, "args"), Coalesce(Get(Get(ev, "function"), "arguments"), Coalesce(Get(ev, "input"), Obj([])))), parse)
  }

  /** A `custom_tool_call` event. */
  function CallEvent(s: State, ev: Value, parse: string -> Option<Value>): State {
    OpenCard(s, EventToolKey(ev, s.counter), CallName(ev), CallArgs(ev, parse), Coalesce(Get(ev, "status"), Str("pending")))
  }

  /** The output of a live result: `ev.content ?? ev.output ?? ev.result ?? ev.data ?? null`. */
  function LiveOutput(ev: Value): Value
  {
    Coalesce(Get(ev, "content"), Coalesce(Get(ev, "output"), Coalesce(Get(ev, "result"), Coalesce(Get(ev, "data"), Null))))
  }

  /** The output of a live result is the first of `content`, `output`,
      `result` and `data` that is not nullish, and `null` when they all are. */
  lemma LiveOutputOrder(ev: Value)
    ensures var content, output, result, data := Get(ev, "content"), Get(ev, "output"), Get(ev, "result"), Get(ev, "data");
      && (!Nullish(content) ==> LiveOutput(ev) == content)
      && (Nullish(content) && !Nullish(output) ==> LiveOutput(ev) == output)
      && (Nullish(content) && Nullish(output) && !Nullish(result) ==> LiveOutput(ev) == result)
      && (Nullish(content) && Nullish(output) && Nullish(result) && !Nullish(data) ==> LiveOutput(ev) == data)
      && (Nullish(content) && Nullish(output) && Nullish(result) && Nullish(data) ==> LiveOutput(ev) == Null)
  {
  }

  /** A `custom_tool_result` event. */
  function ResultEvent(s: State, ev: Value): State {
    Resolve(s, EventToolKey(ev, s.counter), Get(ev, "name"), Get(ev, "status"), LiveOutput(ev))
  }

  predicate IsChunk(ev: Value) {
    Get(ev, "type") == Str("AIMessageChunk") && !Get(ev, "content").Undefined?
  }

  /** One parsed event. `null` ends the stream: reading `ev.type` of it throws.
      `end` and unknown types change nothing. */
  function EventStep(l: Live, ev: Value, parse: string -> Option<Value>): Live {
    if Nullish(ev) then l.(aborted := true)
    else if IsChunk(ev) then OnChunk(l, Get(ev, "content"))
    else if Get(ev, "type") == Str("custom_tool_call") then l.(st := CallEvent(l.st, ev, parse))
    else if Get(ev, "type") == Str("custom_tool_result") then l.(st := ResultEvent(l.st, ev))
    else l
  }

  /** The events the complete lines carry, in order. */
  function DecodeAll(lines: seq<string>, parse: string -> Option<Value>): seq<Value> {
    if lines == [] then []
    else
      DecodeAll(AllButLast(lines), parse) +
      match Decode(Last(lines), parse)
      case None => []
      case Some(ev) => [ev]
  }

  /** The events reduced one after the other; nothing after an exception. */
  function RunEvents(l: Live, evs: seq<Value>, parse: string -> Option<Value>): Live {
    if evs == [] then l
    else
      var m := RunEvents(l, AllButLast(evs), parse);
      if m.aborted then m else EventStep(m, Last(evs), parse)
  }

  /** A response received as `chunks`: its complete lines' events, from a
      response that has no AI bubble yet. */
  function Stream(s: State, chunks: seq<string>, parse: string -> Option<Value>): Live {
    RunEvents(Live(s, None, false), DecodeAll(CompleteLines(chunks), parse), parse)
  }

  /** `handleSubmit` for a non-blank trimmed `text`: the user's bubble, then the
      response; `None` stands for a request that failed before streaming. */
  function Send(s: State, text: string, response: Option<seq<string>>, parse: string -> Option<Value>): State {
    var s1 := Append(s, User, Markdown(text));
    match response
    case None => s1
    case Some(chunks) => Stream(s1, chunks, parse).st
  }

  /* ---------------- history ---------------- */

  /** How far a replay got: the state it reached and whether it ended without
      an exception. */
  datatype Outcome = Outcome(st: State, ok: bool)

  /** One pending card per tool call of an `ai` message, in call order. */
  function OpenCards(s: State, calls: seq<ToolCall>): State {
    if calls == [] then s
    else
      var m := OpenCards(s, AllButLast(calls));
      var c := Last(calls);
      OpenCard(m, ToolKeyOf(c.id, m.counter), c.name, c.args, Str("pending"))
  }

  /** Whether a history `ai` message gets a text bubble: its content is truthy
      and not only white space (see `HasTextTrim`). */
  predicate HasText(content: Value) {
    Truthy(content) && !Blank(ToJsString(content))
  }

  /** `msg.content && String(msg.content).trim() !== ""` */
  lemma HasTextTrim(content: Value)
    ensures HasText(content) <==> Truthy(content) && Trim(ToJsString(content)) != ""
  {
    TrimEmptyIff(ToJsString(content));
  }

  function ReplayAi(s: State, msg: Value, parse: string -> Option<Value>): Outcome {
    match ExtractToolCalls(msg, parse)
    case None => Outcome(s, false)
    case Some(calls) =>
      var m := OpenCards(s, calls);
      var content := Get(msg, "content");
      if HasText(content) then Outcome(Append(m, Ai, Markdown(ToJsString(content))), true)
      else Outcome(m, true)
  }

  function ReplayTool(s: State, msg: Value): State {
    var r := ExtractToolResult(msg);
    Resolve(s, ToolKeyOf(r.id, s.counter), r.name, r.status, r.output)
  }

  /** A file card for a text part that names a file, a markdown bubble otherwise. */
  function HumanPart(s: State, sub: Value): State {
    if Get(sub, "type") == Str("text") && Truthy(Get(sub, "filename"))
    then Append(s, User, FileCard(Get(sub, "filename"), Get(sub, "text")))
    else Append(s, User, Markdown(ContentToMarkdown(sub)))
  }

  /** The parts of a human message's array content; a `null` part throws. */
  function HumanParts(s: State, parts: seq<Value>): Outcome {
    if parts == [] then Outcome(s, true)
    else
      var o := HumanParts(s, AllButLast(parts));
      if !o.ok then o
      else if Nullish(Last(parts)) then Outcome(o.st, false)
      else Outcome(HumanPart(o.st, Last(parts)), true)
  }

  function ReplayHuman(s: State, msg: Value): Outcome {
    var content := Get(msg, "content");
    if content.Arr? then HumanParts(s, content.elems)
    else Outcome(Append(s, User, Markdown(ContentToMarkdown(Coalesce(content, Str(""))))), true)
  }

  predicate IsHuman(msg: Value) {
    Get(msg, "type") == Str("human") || Get(msg, "role") == Str("user")
  }

  /** One history record; reading `msg.type` of `null` throws. */
  function ReplayMessage(s: State, msg: Value, parse: string -> Option<Value>): Outcome {
    if Nullish(msg) then Outcome(s, false)
    else if Get(msg, "type") == Str("ai") then ReplayAi(s, msg, parse)
    else if Get(msg, "type") == Str("tool") then Outcome(ReplayTool(s, msg), true)
    else if IsHuman(msg) then ReplayHuman(s, msg)
    else Outcome(s, true)
  }

  function ReplayAll(s: State, msgs: seq<Value>, parse: string -> Option<Value>): Outcome {
    if msgs == [] then Outcome(s, true)
    else
      var o := ReplayAll(s, AllButLast(msgs), parse);
      if !o.ok then o else ReplayMessage(o.st, Last(msgs), parse)
  }

  /** What `for (const msg of history)` iterates: the elements of an array,
      the characters of a string, each a one-character string. */
  function Records(history: Value): seq<Value>
    requires history.Arr? || history.Str?
  {
    if history.Arr? then history.elems else seq(|history.s|, i requires 0 <= i < |history.s| => Str([history.s[i]]))
  }

  /** The loop over the history records, into a fresh list and a cleared card
      map; a value that is neither an array nor a string is not iterable and
      throws. */
  function ReplayBody(start: State, history: Value, parse: string -> Option<Value>): Outcome {
    if history.Arr? || history.Str? then ReplayAll(start, Records(history), parse)
    else Outcome(start, false)
  }

  /** Loading the history: `None` stands for a request or a JSON body that
      failed, before anything changed. The new list replaces the bubbles only
      when the whole loop finished; the cards and keys made before an
      exception stay. */
  function Replay(s: State, history: Option<Value>, parse: string -> Option<Value>): State {
    match history
    case None => s
    case Some(h) =>
      var o := ReplayBody(s.(bubbles := [], chains := map[]), h, parse);
      if o.ok then o.st else o.st.(bubbles := s.bubbles)
  }

  /* ---------------- the invariant ---------------- */

  /** Bubbles appear in the order their keys were drawn, and every key was
      drawn already. */
  ghost predicate KeysOrdered(bs: seq<Bubble>, counter: nat) {
    && (forall i :: 0 <= i < |bs| ==> bs[i].key < counter)
    && (forall i, j :: 0 <= i < j < |bs| ==> bs[i].key < bs[j].key)
  }

  /** A fallback id takes its serial from the counter as it is when the id is made. */
  predicate KeyFits(key: ToolKey, counter: nat) {
    key.Generated? ==> key.serial <= counter
  }

  /** Every card's bubble key was drawn; no two cards share a bubble; every
      fallback id lies behind the counter. */
  ghost predicate ChainsOrdered(cs: map<ToolKey, Chain>, counter: nat) {
    && (forall t :: t in cs ==> cs[t].bubbleKey < counter && (t.Generated? ==> t.serial < counter))
    && (forall t, u :: t in cs && u in cs && t != u ==> cs[t].bubbleKey != cs[u].bubbleKey)
  }

  /** A card's bubble, where it is in the list, shows the card's items. */
  ghost predicate CardsShown(s: State) {
    forall t, i :: t in s.chains && 0 <= i < |s.bubbles| && s.bubbles[i].key == s.chains[t].bubbleKey ==>
      s.bubbles[i].body == ToolChain(s.chains[t].items)
  }

  ghost predicate Valid(s: State) {
    KeysOrdered(s.bubbles, s.counter) && ChainsOrdered(s.chains, s.counter) && CardsShown(s)
  }

  /** While a response streams: its AI bubble's key was drawn, its text is in
      `aiContent`, the bubble shows that text, and no card uses that key. */
  ghost predicate LiveValid(l: Live) {
    && Valid(l.st)
    && (l.aiKey.Some? ==>
         var k := l.aiKey.value;
         && k < l.st.counter
         && k in l.st.aiContent
         && (forall i :: 0 <= i < |l.st.bubbles| && l.st.bubbles[i].key == k ==>
               l.st.bubbles[i].body == Markdown(l.st.aiContent[k]))
         && (forall t :: t in l.st.chains ==> l.st.chains[t].bubbleKey != k))
  }

  /** `t` was reached from `s` by appending bubbles with newly drawn keys and
      replacing bubbles in place: no bubble was removed or moved. */
  ghost predicate Grows(s: State, t: State) {
    && s.counter <= t.counter
    && |s.bubbles| <= |t.bubbles|
    && (forall i :: 0 <= i < |s.bubbles| ==> t.bubbles[i].key == s.bubbles[i].key && t.bubbles[i].role == s.bubbles[i].role)
    && (forall i :: |s.bubbles| <= i < |t.bubbles| ==> s.counter <= t.bubbles[i].key < t.counter)
  }
}
