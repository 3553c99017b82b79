# memory-assistant chat transcript and memory library, in Dafny

This project models the two stateful components of the memory-assistant web
client and proves properties of them.

**The chat window** (`src/components/ChatWindow.tsx`) keeps a transcript:
- a list of bubbles, each with a key, a role (user or ai) and a body (markdown text or a tool-call card);
- a key counter (`nextKey`);
- `aiContentMap`: the streamed text of the assistant bubble, by bubble key;
- `toolChainMap`: each tool-call card's bubble key and items, by tool-call id.

Four paths change the transcript:
- **History replay** turns stored `ai`, `tool` and `human` messages into bubbles and commits the list only when the whole history is done.
- **Sending** appends the user's bubble.
- **Line framing** of the server-sent event stream splits the received chunks on `"\n"` and keeps the partial last line in a buffer. It reads `data:` lines as JSON events.
- **Live event reduction** folds the events into the transcript: token chunks, tool calls, tool results and `end`.

**The memory library** (`src/components/MemorySidebar.tsx`) keeps projects, each holding memory points, plus the sidebar's form and dialog state. Its handlers are:
- toggle a project open;
- delete a memory;
- edit a memory;
- add a project;
- add a memory.

The sidebar also shows a 100-character content preview.

Modules, in dependency order:

- `JsText`: `trim`, `startsWith`, `toLowerCase` over `seq<char>`.
- `JsValue`: loose JavaScript values.
  - `undefined` for a missing property, `null`, booleans, numbers (integers), strings, arrays, and objects as ordered property lists.
  - `??`, truthiness, `String(v)`, `JSON.stringify(v, null, 2)`, and `pretty`.
- `Normalizer`: `contentToMarkdown`, `partToMarkdown`, `extractToolCalls`, `extractToolResult`.
- `Framing`: splitting on `"\n"`, the chunk buffer, and the `data:` payload rule.
- `Reducer`: the transcript state and every step as a function.
  - bubble append, card open/resolve, token chunk, one live event;
  - the event fold, sending, history replay.
- `Transcript`, `LiveStream`, `History`: the properties of those steps.
- `ChatWindowState`: the component as the class `ChatWindow`. Its fields are the state. Its methods run the loops of the source and are proved to reach the state the `Reducer` functions give.
- `MemoryLibrary`: the list transformations as functions with their properties, and the component as the class `MemorySidebar`.

Modelling choices:

- `JSON.parse` is a parameter `parse: string -> Option<Value>`. `None` stands for a thrown `SyntaxError`.
- An object's property names are taken to be unique, as they are in what `JSON.parse` returns for a text without repeated names. A property read takes the only match.
- The fallback ids built from `Date.now()`/`Math.random()` in the chat window become `ToolKey.Generated(k)`. Here `k` is the value of the key counter at that moment, so such an id is fresh.
- A tool-call id is filed in `toolChainMap` under `String(id)` (`Named(String(id))`). The map is modelled as a map with no entries but the ones the component stored.
- The ids `Date.now()` gives the sidebar are method parameters (`stamp`).
- A JavaScript exception is modelled as a value.
  - In history replay, an exception thrown inside the loop:
    - discards the new list;
    - leaves the bubbles as they were;
    - keeps what the loop did to the counter and to `toolChainMap`.
  - On the stream, an exception ends reading. Examples: a `data: null` event, whose `ev.type` throws.
- The stream is the sequence of decoded text chunks the reader delivers. A dropped connection is a shorter sequence.

Where the code and its design notes disagree, the model follows the code:

- A repeated `custom_tool_call` id opens a new card and repoints the map entry (`RepeatedCall`). It does not append to the old card.
- A result that arrives before its call leaves a synthesized, resolved card. The call then opens a second card (`ResultBeforeCall`).
- Only `"\n"` framing exists. There is no blank-line grouping of frames.
- `data: [DONE]` is skipped, not a terminator (`DoneDoesNotEnd`), and `end` does nothing.
- The partial line still in the buffer when the stream closes is dropped.
- History reads a tool output as `output ?? result ?? data ?? content ?? null` (`ToolResultFields`). Live results read `content ?? output ?? result ?? data ?? null` (`LiveOutputOrder`). `OutputPrecedence` shows the two disagree whenever both `output` and `content` are present.
- A failed history load neither empties the transcript nor keeps the messages before the failing one. The bubbles stay as they were (`FailedReplayKeepsBubbles`).

## Model

| member | source | states |
|---|---|---|
| JsText.TrimStart | src/components/ChatWindow.tsx:372 | the result is a suffix of the input, every dropped character is white space, and the result does not start with white space |
| JsText.TrimEnd | src/components/ChatWindow.tsx:370 | the result is a prefix of the input, every dropped character is white space, and the result does not end with white space |
| JsText.TrimEmptyIff | src/components/ChatWindow.tsx:325-326 | a trimmed string is empty exactly when every character of the string is white space |
| JsText.TrimIsTrimmed | src/components/ChatWindow.tsx:370 | a non-empty trimmed string neither starts nor ends with white space |
| JsText.LowerAscii | src/components/ChatWindow.tsx:497 | lower-casing keeps the length and maps exactly the letters A-Z to a-z, character by character |
| JsValue.Pretty | src/components/ChatWindow.tsx:37-38 | a string is shown as itself; null and undefined are shown as the JSON text of the empty string |
| Normalizer.ContentShapes | src/components/ChatWindow.tsx:41-58 | null gives ""; a string is returned unchanged; an object with a string `text` gives that text; an array gives its first part's markdown followed by the rest's; other values give a json code fence |
| Normalizer.PartsConcatenate | src/components/ChatWindow.tsx:49-51 | the markdown of an array is the concatenation of the markdown of its halves, for every split point |
| Normalizer.PartsAppend | src/components/ChatWindow.tsx:50 | mapping parts to markdown and joining distributes over concatenation of the parts |
| Normalizer.TextPart | src/components/ChatWindow.tsx:62-65 | every object part whose `type ?? kind` is "text" gives `String(text ?? "")`: its text when that is a string, "" when it is nullish |
| Normalizer.ImagePart | src/components/ChatWindow.tsx:66-71 | an image part without a url gives ""; with a url it gives `![alt](url)` and a newline, where alt defaults to `image` |
| Normalizer.FilePart | src/components/ChatWindow.tsx:72-76 | a file part with a url gives `[name](url)` and a newline, where name defaults to `file`; without a url it gives a json code fence |
| Normalizer.ScalarPart | src/components/ChatWindow.tsx:61 | null and undefined parts give "", a string part gives itself, `false` gives "false" |
| Normalizer.ParseArgs | src/components/ChatWindow.tsx:88-95 | non-string arguments are kept; string arguments are replaced by their parse when it succeeds and kept when it fails |
| Normalizer.CallFields | src/components/ChatWindow.tsx:86-96 | for each position of each `??` chain: the name is the first non-nullish of `function.name`, `name`, else "Tool call"; the id the first of `id`, `tool_call_id`, `call_id`; the arguments the first of `function.arguments`, `args`, `input`, `parameters`, else `{}`, parsed when a string |
| Normalizer.CallsOf | src/components/ChatWindow.tsx:85-97 | the calls are extracted exactly when no element is nullish, and then element by element in order |
| Normalizer.ToolCallsSources | src/components/ChatWindow.tsx:83-98 | the calls come from `tool_calls`, or from `additional_kwargs.tool_calls` when that is nullish; from either, an array is extracted call by call, another falsy value gives no calls, another truthy value throws; both nullish gives no calls |
| Normalizer.ToolResultFields | src/components/ChatWindow.tsx:101-112 | for each position of each `??` chain: the id is the first non-nullish of `tool_call_id`, `tool_call.id`, `id`; the name of `name`, `tool_name`; the status of `status`, else "success"; the output of `output`, `result`, `data`, `content`, else `null` |
| Framing.Split | src/components/ChatWindow.tsx:366-367 | splitting always yields at least one piece, so popping the buffer always succeeds |
| Framing.SplitPieces | src/components/ChatWindow.tsx:366 | no piece of a split holds a "\n" |
| Framing.JoinSplit | src/components/ChatWindow.tsx:366 | rejoining the pieces with "\n" gives back the text |
| Framing.SplitJoin | src/components/ChatWindow.tsx:366 | splitting pieces without "\n" joined by "\n" gives back the pieces |
| Framing.SplitAppend | src/components/ChatWindow.tsx:363-366 | splitting a concatenation fuses the last piece of the first text with the first piece of the second |
| Framing.SplitTail | src/components/ChatWindow.tsx:363-367 | adding text to a buffer re-splits only the buffer's last piece |
| Framing.ChunkStep | src/components/ChatWindow.tsx:360-367 | for every chunking, splitting buffer plus chunk yields exactly the complete lines the whole received text gains, and leaves exactly the whole text's trailing partial line in the buffer |
| Framing.CompleteLinesGrow | src/components/ChatWindow.tsx:360-369 | receiving more text never takes back a complete line |
| Framing.Reassemble | src/components/ChatWindow.tsx:366-367 | the buffer never holds a "\n", and the complete lines, rejoined with the buffer, give back everything received |
| Framing.Payload | src/components/ChatWindow.tsx:370-373 | a payload is found only on a line that starts with `data:` once trimmed; it is that line's suffix after white space, and it is never empty, `[DONE]` or led by white space |
| Framing.FrameRoundTrip | src/components/ChatWindow.tsx:370-373 | a payload framed as `data:` with any surrounding white space is read back unchanged |
| Framing.FrameCarries | src/components/ChatWindow.tsx:370-373 | a framed payload is read back exactly, except `[DONE]`, which is skipped |
| Framing.TrimAround | src/components/ChatWindow.tsx:370 | trim removes exactly the blank text around a string that neither starts nor ends with white space |
| Framing.SkippedDone | src/components/ChatWindow.tsx:370-373 | a `data:` + `[DONE]` line, with any white space before, after and between, yields no event |
| Framing.SkippedEmpty | src/components/ChatWindow.tsx:370-373 | every line that starts with `data:` once trimmed and has only white space after it yields no event |
| Reducer.LiveOutputOrder | src/components/ChatWindow.tsx:499-500 | for each position of the chain: a live result's output is the first non-nullish of `content`, `output`, `result`, `data`, else `null` |
| Reducer.ReplaceBody | src/components/ChatWindow.tsx:413-424 | replacing a bubble by key keeps the number of bubbles |
| Reducer.Ensure | src/components/ChatWindow.tsx:472-487 | after looking a card up or synthesizing it, the id has a card |
| Reducer.HasTextTrim | src/components/ChatWindow.tsx:208 | an ai message gets a text bubble exactly when its content is truthy and not blank after trim |
| Transcript.KeysDistinct | src/components/ChatWindow.tsx:158-159 | in a well-formed transcript, two different bubbles never share a key |
| Transcript.AppendFacts | src/components/ChatWindow.tsx:199-205 | appending uses the next key, puts the bubble at the end, advances the counter by one, keeps the transcript well-formed and only grows it |
| Transcript.OpenCardFacts | src/components/ChatWindow.tsx:443-464 | opening a card appends exactly one ai bubble holding exactly one item, and points the id's map entry at that bubble |
| Transcript.ResolveBubbles | src/components/ChatWindow.tsx:469-520 | resolving appends one card for an unseen id and otherwise keeps the count; it replaces only the bubble with the card's key and leaves the other map entries and the streamed text alone |
| Transcript.ResolveKnown | src/components/ChatWindow.tsx:472-520 | for a known id, no bubble is added, no key is used, and only the card's own bubble is replaced |
| Transcript.ResolveUnknown | src/components/ChatWindow.tsx:475-487 | for an unseen id, exactly one card bubble is appended with the next key and registered under that id |
| Transcript.UnknownCard | src/components/ChatWindow.tsx:237-247 | a card synthesized for an unseen id appends one bubble showing the card's items |
| Transcript.SetCardFacts | src/components/ChatWindow.tsx:512-520 | updating a known card's items changes only the bubble with that card's key |
| Transcript.ResolveItems | src/components/ChatWindow.tsx:489-510 | resolving keeps every earlier item, adds a placeholder only to an empty card, marks the last item success exactly when the lower-cased status is "success" and sets its description from the output |
| Transcript.SettleItems | src/components/ChatWindow.tsx:248-263 | the item list never shrinks, only the last item changes, and its status and description are set from the result |
| Transcript.ResolveValid | src/components/ChatWindow.tsx:469-520 | resolving keeps the transcript well-formed and append-only |
| Transcript.OpenCardValid | src/components/ChatWindow.tsx:454-464 | registering a card and appending its bubble keeps the transcript well-formed and append-only |
| Transcript.SetCardValid | src/components/ChatWindow.tsx:513-520 | replacing a card's bubble in place keeps the transcript well-formed and append-only |
| LiveStream.FirstChunk | src/components/ChatWindow.tsx:383-409 | the first token appends exactly one ai bubble under the next key, and records its text as the streamed content |
| LiveStream.LaterChunk | src/components/ChatWindow.tsx:410-425 | a later token keeps the bubble count, appends its text to the streamed content, and changes only the bubble whose key is `aiKey` |
| LiveStream.CallShape | src/components/ChatWindow.tsx:430-465 | a tool call appends exactly one card bubble with one item under the next key, and repoints the map entry for its id at it |
| LiveStream.CallStep | src/components/ChatWindow.tsx:430-465 | as CallShape, and the transcript stays well-formed and append-only |
| LiveStream.ResultStep | src/components/ChatWindow.tsx:469-520 | a tool result resolves the id's card, adds a bubble only for an unseen id, and leaves every bubble but the card's unchanged |
| LiveStream.EventValid | src/components/ChatWindow.tsx:383-535 | every event keeps the transcript well-formed and append-only, and never moves `aiKey` once set |
| LiveStream.RunValid | src/components/ChatWindow.tsx:369-536 | a whole event sequence keeps the transcript well-formed and append-only |
| LiveStream.AbortedStays | src/components/ChatWindow.tsx:538-540 | once reading has thrown, later events change nothing |
| LiveStream.RunAppend | src/components/ChatWindow.tsx:360-369 | folding two event sequences one after the other equals folding their concatenation |
| LiveStream.AbortedPrefix | src/components/ChatWindow.tsx:538-540 | events after the one that threw have no effect |
| LiveStream.DecodeAppend | src/components/ChatWindow.tsx:369-380 | decoding lines distributes over concatenation of the lines |
| LiveStream.SkippedLine | src/components/ChatWindow.tsx:371-380 | a line without an event is skipped and the lines after it are still processed |
| LiveStream.DoneDoesNotEnd | src/components/ChatWindow.tsx:370-373 | a `[DONE]` frame, with any white space around it, does not end the stream: the lines around it are decoded as if it were absent |
| LiveStream.StreamTokens | src/components/ChatWindow.tsx:358-425 | within one send, `aiKey` is set exactly when some token arrived; then its bubble exists and its text is the in-order concatenation of all tokens; reading stops exactly at a thrown event |
| LiveStream.TokenStep | src/components/ChatWindow.tsx:383-425 | one event extends the streamed text by its token when it is a chunk, and keeps it otherwise |
| LiveStream.SendFacts | src/components/ChatWindow.tsx:324-337 | sending appends the user bubble under the next key at the end, and the exchange keeps the transcript well-formed and append-only |
| LiveStream.CallThenResult | src/components/ChatWindow.tsx:430-520 | a call followed by its result leaves one new card with one item carrying the call's title and the result's status and description |
| LiveStream.ResultBeforeCall | src/components/ChatWindow.tsx:469-487 | a result before its call leaves a resolved synthesized card and then a second, pending card, which the id now points at |
| LiveStream.UnknownResult | src/components/ChatWindow.tsx:475-496 | a result for an unseen id appends one card with one resolved placeholder item |
| LiveStream.RepeatedCall | src/components/ChatWindow.tsx:454-455 | a call id used twice opens two cards, and the id ends up pointing at the second |
| LiveStream.TwoCalls | src/components/ChatWindow.tsx:454-464 | two calls append two single-item cards under consecutive keys |
| History.CardsSpec | src/components/ChatWindow.tsx:185-205 | the pending cards of a message's calls are one per call, in call order, under consecutive keys |
| History.OpenCardsShape | src/components/ChatWindow.tsx:185-206 | opening a message's cards appends exactly those cards and uses one key per call |
| History.OpenCardsValid | src/components/ChatWindow.tsx:185-206 | opening cards keeps the transcript well-formed and append-only |
| History.AiThrows | src/components/ChatWindow.tsx:84-85 | an ai message whose tool calls cannot be extracted throws before changing anything |
| History.AiShape | src/components/ChatWindow.tsx:183-229 | an ai message with n calls appends n pending cards in call order and then a text bubble exactly when its content has text |
| History.CardsThenText | src/components/ChatWindow.tsx:185-227 | the cards come before the text bubble, and the text bubble takes the key after the cards |
| History.AddTextShape | src/components/ChatWindow.tsx:208-227 | the text bubble is appended under the next key exactly when the content has text |
| History.ToolShape | src/components/ChatWindow.tsx:232-265 | a tool message appends a bubble only when its id is unseen, and keeps the transcript well-formed |
| History.HumanPartsThrow | src/components/ChatWindow.tsx:270-271 | the parts of a human message are replayed without throwing exactly when none of them is nullish |
| History.HumanPartsShape | src/components/ChatWindow.tsx:268-298 | a human message with array content appends one user bubble per part, in order, under consecutive keys: a file card or the part's markdown |
| History.HumanPartsValid | src/components/ChatWindow.tsx:268-298 | replaying parts keeps the transcript well-formed and append-only |
| History.HumanTextShape | src/components/ChatWindow.tsx:299-307 | a human message with non-array content appends exactly one user bubble with its markdown |
| History.OtherShape | src/components/ChatWindow.tsx:181-310 | a message that is neither ai, tool nor human appends nothing |
| History.MessageValid | src/components/ChatWindow.tsx:181-310 | every message keeps the transcript well-formed and append-only |
| History.ReplayAllValid | src/components/ChatWindow.tsx:181-310 | the whole loop keeps the transcript well-formed and append-only |
| History.ReplayValid | src/components/ChatWindow.tsx:178-315 | loading history keeps the transcript well-formed and never moves the key counter back |
| History.ReplayNothing | src/components/ChatWindow.tsx:173-174 | a failed fetch changes nothing |
| History.FailedReplayKeepsBubbles | src/components/ChatWindow.tsx:312-315 | a history with a null message commits nothing: the bubbles stay as they were |
| History.NullStops | src/components/ChatWindow.tsx:181-183 | a null message anywhere makes the loop throw |
| History.CommittedReplay | src/components/ChatWindow.tsx:176-179 | a loop that finishes commits a transcript built from scratch: two states with the same counter and streamed text, whatever their bubbles and tool-card maps, load the same history to the same state |
| History.StringHistory | src/components/ChatWindow.tsx:181 | a string history is iterated character by character; no character is an ai, tool or human message, so the load commits an empty list and clears the tool-card map |
| History.NotIterable | src/components/ChatWindow.tsx:181 | a history that is not iterable only clears the tool-card map |
| History.OutputPrecedence | src/components/ChatWindow.tsx:105-110 | when both are present, history uses `output` and the live path uses `content` |
| ChatWindowState.StreamStops | src/components/ChatWindow.tsx:360-380 | as soon as an event throws while reading, the final transcript is the one at that point |
| ChatWindowState.HumanPartsStop | src/components/ChatWindow.tsx:270 | once a part throws, the later parts change nothing |
| ChatWindowState.ReplayStops | src/components/ChatWindow.tsx:181 | once a message throws, the later messages change nothing |
| ChatWindowState.LineStep | src/components/ChatWindow.tsx:369 | processing one more line continues the fold from the state before it |
| ChatWindowState.LinesStop | src/components/ChatWindow.tsx:538-540 | after a throw, further lines change nothing |
| ChatWindowState.ChatWindow.constructor | src/components/ChatWindow.tsx:149-166 | the component starts with no bubbles, counter 0, empty maps and an empty input |
| ChatWindowState.ChatWindow.NextKey | src/components/ChatWindow.tsx:158-159 | each key is the counter's old value and the counter goes up by one |
| ChatWindowState.ChatWindow.OnChange | src/components/ChatWindow.tsx:569 | the input becomes `String(v ?? "")` |
| ChatWindowState.ChatWindow.OpenCardIn | src/components/ChatWindow.tsx:443-464 | the fields and list reach exactly the state of opening the card |
| ChatWindowState.ChatWindow.ResolveIn | src/components/ChatWindow.tsx:469-520 | the fields and list reach exactly the state of resolving the card |
| ChatWindowState.ChatWindow.SetCardIn | src/components/ChatWindow.tsx:503-520 | the card's items are stored and its bubble replaced, as the reducer states |
| ChatWindowState.ChatWindow.EnsureIn | src/components/ChatWindow.tsx:472-487 | the card is looked up or synthesized, as the reducer states |
| ChatWindowState.ChatWindow.HandleEvent | src/components/ChatWindow.tsx:383-535 | one event moves the fields and `aiKey` to exactly the reducer's next state |
| ChatWindowState.ChatWindow.HandleSubmit | src/components/ChatWindow.tsx:324-338 | blank input changes nothing; otherwise the trimmed text is sent, the exchange is reduced and the input is cleared |
| ChatWindowState.ChatWindow.ReadStream | src/components/ChatWindow.tsx:357-367 | reading the chunks with the line buffer reaches the state of folding the events of all complete lines of the whole received text |
| ChatWindowState.ChatWindow.ReadLines | src/components/ChatWindow.tsx:369-380 | the line loop reaches the fold of the lines' events |
| ChatWindowState.ChatWindow.ReadLine | src/components/ChatWindow.tsx:370-380 | one line's event, if any, is reduced |
| ChatWindowState.ChatWindow.ReplayRecord | src/components/ChatWindow.tsx:181-310 | one history message moves the list and fields to exactly the reducer's outcome |
| ChatWindowState.ChatWindow.ReplayAiIn | src/components/ChatWindow.tsx:183-229 | an ai message is replayed as the reducer states |
| ChatWindowState.ChatWindow.OpenCardsIn | src/components/ChatWindow.tsx:185-206 | the call loop opens the cards as the reducer states |
| ChatWindowState.ChatWindow.ReplayHumanIn | src/components/ChatWindow.tsx:268-309 | a human message is replayed as the reducer states |
| ChatWindowState.ChatWindow.LoadHistory | src/components/ChatWindow.tsx:169-179 | loading reaches exactly the reducer's replay of the fetched history |
| MemoryLibrary.MapProjects | src/components/MemorySidebar.tsx:50-58 | the project list keeps its length, order, ids and names; only the projects with the given id get new memories |
| MemoryLibrary.Without | src/components/MemorySidebar.tsx:55 | the kept memories are exactly those whose id differs |
| MemoryLibrary.PatchAll | src/components/MemorySidebar.tsx:68-70 | patching keeps the number of memories |
| MemoryLibrary.ToggleSpec | src/components/MemorySidebar.tsx:45-47 | afterwards the project is expanded exactly when it was not before, and otherwise none is |
| MemoryLibrary.ToggleTwice | src/components/MemorySidebar.tsx:45-47 | toggling twice restores the state when nothing or this project was open, and closes all otherwise |
| MemoryLibrary.WithoutAppend | src/components/MemorySidebar.tsx:55 | filtering distributes over concatenation, so the original order is kept |
| MemoryLibrary.WithoutAbsent | src/components/MemorySidebar.tsx:55 | filtering out an absent id changes nothing |
| MemoryLibrary.WithoutTwice | src/components/MemorySidebar.tsx:55 | filtering twice equals filtering once |
| MemoryLibrary.DeleteSpec | src/components/MemorySidebar.tsx:49-60 | deleting keeps the projects, their order, ids and names; only the given project loses exactly the memories with the given id |
| MemoryLibrary.DeleteTwice | src/components/MemorySidebar.tsx:49-60 | deleting twice equals deleting once |
| MemoryLibrary.EditSpec | src/components/MemorySidebar.tsx:62-74 | editing keeps every list length; only memories with the id in the given project change, and only in the fields the patch sets |
| MemoryLibrary.EditNothing | src/components/MemorySidebar.tsx:69 | an empty patch changes nothing |
| MemoryLibrary.EditTwice | src/components/MemorySidebar.tsx:62-74 | applying a patch twice equals applying it once |
| MemoryLibrary.AddProjectSpec | src/components/MemorySidebar.tsx:80 | exactly one project with the name and no memories is appended at the end |
| MemoryLibrary.AddMemorySpec | src/components/MemorySidebar.tsx:87-99 | the memory is appended at the end of the current project's memories; all other projects stay unchanged |
| MemoryLibrary.AddThenDelete | src/components/MemorySidebar.tsx:85-99 | deleting a memory just added under a fresh id gives back the projects |
| MemoryLibrary.PreviewSpec | src/components/MemorySidebar.tsx:188-190 | content of at most 100 characters is shown unchanged; longer content shows its first 100 and "...", so the preview has at most 103 characters and begins with the content's first 100 |
| MemoryLibrary.MemorySidebar.constructor | src/components/MemorySidebar.tsx:27-43 | the sidebar starts with the sample project, nothing expanded or being edited, and empty forms and closed dialogs |
| MemoryLibrary.MemorySidebar.ToggleProject | src/components/MemorySidebar.tsx:45-47 | the expanded project becomes the toggle of the old one |
| MemoryLibrary.MemorySidebar.HandleDelete | src/components/MemorySidebar.tsx:49-60 | the projects become the deletion of the memory from the old list |
| MemoryLibrary.MemorySidebar.StartEdit | src/components/MemorySidebar.tsx:181 | the memory becomes the one being edited |
| MemoryLibrary.MemorySidebar.HandleEdit | src/components/MemorySidebar.tsx:62-76 | the projects become the edit of the old list, and editing ends |
| MemoryLibrary.MemorySidebar.HandleAddProject | src/components/MemorySidebar.tsx:78-83 | a blank name changes nothing; otherwise the project is appended, the name cleared and the dialog closed |
| MemoryLibrary.MemorySidebar.OpenAddMemory | src/components/MemorySidebar.tsx:197-200 | the dialog opens for the given project |
| MemoryLibrary.MemorySidebar.ResetMemoryForm | src/components/MemorySidebar.tsx:100-101 | the memory form is cleared and its dialog closed |
| MemoryLibrary.MemorySidebar.HandleAddMemory | src/components/MemorySidebar.tsx:85-102 | a blank title changes nothing; otherwise the memory is appended to the current project, the form cleared and the dialog closed |

## Left out

- Rendering: JSX, `MarkdownView` and its markdown-it conversion, antd and `@ant-design/x` components, icons and the `roles` table. A bubble's body records what it would show: markdown text, a file card or card items.
- Network and decoding: `fetch`, the `resp.ok` checks, `TextDecoder`. History arrives as an optional value (`None` for a failed fetch) and the stream as a sequence of already decoded chunks.
- The `sending` and `loadingHistory` flags, and the asynchronous interleaving of a send with a history load. Each is modelled as running to completion on its own.
- The `localStorage` write of cached tool results, clipboard copies, `antdMessage` notifications and `console.error`. They keep no state the transcript depends on.
- `JSON.parse`: a parameter. `JSON.stringify` is written out for the modelled values, without cycles, `toJSON` or non-integer numbers.
- Numbers are integers. Floating point, `NaN` and number formatting are not modelled.
- Collisions of the `Date.now()`/`Math.random()` fallback ids. A generated id is fresh by construction.
- The React-state setters that only store a value are not modelled: the new-project name field, the memory form fields and the dialog flags of the sidebar.
- Tool-call ids that are names of `Object.prototype` properties (`constructor`, `toString`, `__proto__` and the like). `toolChainMap` is a plain `{}`. A result for such an id that no call registered finds an inherited value instead of `undefined`, and `chain.items.length` then throws: on the stream reading ends, in history the load commits nothing. A card stored under `__proto__` replaces the map's prototype instead of adding an entry. The model gives every id its own entry and treats an id no call registered as unseen, so it synthesizes a card there.
- History cards alias their item list, so a later tool result shows up in the earlier bubble. This is modelled by writing the updated items into that bubble (`ReplaceBody`).
- MemoryLibrary.PatchAll: a patch field an edit sets explicitly to `undefined` is treated as absent.
- JsText.LowerAscii: lower-cases only the letters A-Z, where JavaScript's `toLowerCase` maps all of Unicode; no other character lower-cases to a letter of "success", so the status test is unaffected.
- MemoryLibrary.PreviewSpec: counts characters (Unicode scalar values), where JavaScript's `length` and `slice` count UTF-16 code units.
- Reducer.ReplaceBody: states only that the number of bubbles is kept. Which bubble changes is stated by Transcript.SetCardFacts and LiveStream.LaterChunk.
- src/hooks/useChat.ts, src/types/chat.ts and src/App.tsx are not part of this model: a network wrapper, type declarations and layout.
