/** The chat component's normalizer and field extractors
    (src/components/ChatWindow.tsx, lines 36-112): how a message's content of
    any shape becomes markdown text, and which of the backend's alternative
    field names supply a tool call's id, name and arguments or a tool result's
    id, name, status and output. */
module Normalizer {
  import opened JsText
  import opened JsValue

  /** "```json\n" + JSON.stringify(v, null, 2) + "\n```" */
  function Fenced(v: Value): string
    requires !v.Undefined?
  {
    "```json\n" + Stringify(v) + "\n```"
  }

  /** `contentToMarkdown(content)`. Serializing a parsed JSON value cannot throw,
      so the `String(content)` fallback of the source's catch is never taken. */
  function ContentToMarkdown(content: Value): string {
    if Nullish(content) then ""
    else if content.Str? then content.s
    else if content.Obj? && Get(content, "text").Str? then Get(content, "text").s
    else if content.Arr? then PartsToMarkdown(content.elems)
    else Fenced(content)
  }

  /** `parts.map(partToMarkdown).join("")` */
  function PartsToMarkdown(parts: seq<Value>): string {
    if parts == [] then "" else PartToMarkdown(parts[0]) + PartsToMarkdown(parts[1..])
  }

  /** The discriminator of a part: `part.type ?? part.kind ?? ""`. */
  function PartType(part: Value): Value {
    Coalesce(Get(part, "type"), Coalesce(Get(part, "kind"), Str("")))
  }

  /** The link target of an image part: `part.url ?? part.image_url?.url ?? part.image_url ?? ""`. */
  function ImageUrl(part: Value): Value {
    Coalesce(Get(part, "url"), Coalesce(Get(Get(part, "image_url"), "url"), Coalesce(Get(part, "image_url"), Str(""))))
  }

  /** `partToMarkdown(part)` */
  function PartToMarkdown(part: Value): string {
    if !Truthy(part) || !(part.Arr? || part.Obj?) then ToJsString(Coalesce(part, Str("")))
    else
      var t := PartType(part);
      if t == Str("text") then ToJsString(Coalesce(Get(part, "text"), Str("")))
      else if t == Str("image_url") || t == Str("image") then
        var url := ImageUrl(part);
        var alt := Coalesce(Get(part, "alt"), Str("image"));
        if Truthy(url) then "![" + ToJsString(alt) + "](" + ToJsString(url) + ")\n" else ""
      else if t == Str("file") || t == Str("attachment") then
        if Truthy(Get(part, "url"))
        then "[" + ToJsString(Coalesce(Get(part, "name"), Str("file"))) + "](" + ToJsString(Get(part, "url")) + ")\n"
        else Fenced(part) + "\n"
      else Fenced(part) + "\n"
  }

  /** The shapes `contentToMarkdown` distinguishes: `null` gives the empty text,
      a string is returned unchanged, an object with a string `text` gives that
      text, an array gives the markdown of its parts one after the other, and
      anything else becomes a fenced JSON block. */
  lemma ContentShapes(content: Value)
    ensures Nullish(content) ==> ContentToMarkdown(content) == ""
    ensures content.Str? ==> ContentToMarkdown(content) == content.s
    ensures content.Obj? && Get(content, "text").Str? ==> ContentToMarkdown(content) == Get(content, "text").s
    ensures content.Arr? && |content.elems| > 0 ==>
      ContentToMarkdown(content) == PartToMarkdown(content.elems[0]) + ContentToMarkdown(Arr(content.elems[1..]))
    ensures (content.Num? || content.Bool? || (content.Obj? && !Get(content, "text").Str?)) ==>
      StartsWith(ContentToMarkdown(content), "```json\n")
  {
  }

  /** Concatenating two arrays of parts concatenates their markdown: each part
      is rendered on its own, in order, with nothing between them. */
  lemma {:induction false} PartsConcatenate(xs: seq<Value>, ys: seq<Value>)
    ensures ContentToMarkdown(Arr(xs + ys)) == ContentToMarkdown(Arr(xs)) + ContentToMarkdown(Arr(ys))
  {
    PartsAppend(xs, ys);
  }

  lemma {:induction false} PartsAppend(xs: seq<Value>, ys: seq<Value>)
    ensures PartsToMarkdown(xs + ys) == PartsToMarkdown(xs) + PartsToMarkdown(ys)
  {
    if xs != [] {
      assert (xs + ys)[0] == xs[0] && (xs + ys)[1..] == xs[1..] + ys;
      PartsAppend(xs[1..], ys);
      assert PartsToMarkdown(xs + ys) == PartToMarkdown(xs[0]) + PartsToMarkdown(xs[1..] + ys);
    } else {
      assert xs + ys == ys;
    }
  }

  /** A part whose type (or kind) is "text" gives its `text` field as a
      string: the text itself when it is one, nothing when it is absent. */
  lemma TextPart(part: Value)
    requires part.Obj? && PartType(part) == Str("text")
    ensures Get(part, "text").Str? ==> PartToMarkdown(part) == Get(part, "text").s
    ensures Nullish(Get(part, "text")) ==> PartToMarkdown(part) == ""
    ensures PartToMarkdown(part) == ToJsString(Coalesce(Get(part, "text"), Str("")))
  {
  }

  /** An image part without a link gives nothing; with one it gives a markdown
      image whose alt text defaults to "image". */
  lemma ImagePart(part: Value)
    requires part.Obj? && PartType(part) in {Str("image"), Str("image_url")}
    ensures !Truthy(ImageUrl(part)) ==> PartToMarkdown(part) == ""
    ensures Truthy(ImageUrl(part)) && Nullish(Get(part, "alt")) ==>
      PartToMarkdown(part) == "![image](" + ToJsString(ImageUrl(part)) + ")\n"
    ensures Truthy(ImageUrl(part)) && Get(part, "alt").Str? ==>
      PartToMarkdown(part) == "![" + Get(part, "alt").s + "](" + ToJsString(ImageUrl(part)) + ")\n"
  {
  }

  /** A file part with a link gives a markdown link whose text defaults to
      "file"; without one it gives the part as a fenced JSON block. */
  lemma FilePart(part: Value)
    requires part.Obj? && PartType(part) in {Str("file"), Str("attachment")}
    ensures Get(part, "url").Str? && Get(part, "url").s != "" && Nullish(Get(part, "name")) ==>
      PartToMarkdown(part) == "[file](" + Get(part, "url").s + ")\n"
    ensures Get(part, "url").Str? && Get(part, "url").s != "" && Get(part, "name").Str? ==>
      PartToMarkdown(part) == "[" + Get(part, "name").s + "](" + Get(part, "url").s + ")\n"
    ensures !Truthy(Get(part, "url")) ==> PartToMarkdown(part) == Fenced(part) + "\n"
  {
  }

  /** A part that is not an object is written as `String(part ?? "")`. */
  lemma ScalarPart(part: Value)
    requires !(part.Arr? || part.Obj?)
    ensures Nullish(part) ==> PartToMarkdown(part) == ""
    ensures part.Str? ==> PartToMarkdown(part) == part.s
    ensures part.Bool? && !part.b ==> PartToMarkdown(part) == "false"
  {
  }

  /** One tool call of a history `ai` message. */
  datatype ToolCall = ToolCall(id: Value, name: Value, args: Value)

  /** A tool result of a history `tool` message. */
  datatype ToolResult = ToolResult(id: Value, name: Value, status: Value, output: Value)

  /** Arguments delivered as a string are parsed when they are JSON and kept as
      the string when they are not (`JSON.parse` inside try/catch). */
  function ParseArgs(args: Value, parse: string -> Option<Value>): (r: Value)
    ensures !args.Str? ==> r == args
    ensures args.Str? && parse(args.s).None? ==> r == args
    ensures args.Str? && parse(args.s).Some? ==> r == parse(args.s).value
  {
    if args.Str? then
      match parse(args.s)
      case Some(v) => v
      case None => args
    else args
  }

  /** The fields of one element `c` of `tool_calls`. */
  function CallOf(c: Value, parse: string -> Option<Value>): (r: ToolCall)
    ensures !Nullish(r.name)
    ensures Get(Get(c, "function"), "name").Str? ==> r.name == Get(Get(c, "function"), "name")
    ensures Nullish(Get(Get(c, "function"), "name")) && Nullish(Get(c, "name")) ==> r.name == Str("Tool call")
    ensures !Nullish(Get(c, "id")) ==> r.id == Get(c, "id")
    ensures Nullish(Get(c, "id")) && Nullish(Get(c, "tool_call_id")) && Nullish(Get(c, "call_id")) ==> Nullish(r.id)
    ensures (Nullish(Get(Get(c, "function"), "arguments")) && Nullish(Get(c, "args")) && Nullish(Get(c, "input"))
             && Nullish(Get(c, "parameters"))) ==> r.args == Obj([])
  {
    var name := Coalesce(Get(Get(c, "function"), "name"), Coalesce(Get(c, "name"), Str("Tool call")));
    var id := Coalesce(Get(c, "id"), Coalesce(Get(c, "tool_call_id"), Get(c, "call_id")));
    var args := Coalesce(Get(Get(c, "function"), "arguments"),
      Coalesce(Get(c, "args"), Coalesce(Get(c, "input"), Coalesce(Get(c, "parameters"), Obj([])))));
    ToolCall(id, name, ParseArgs(args, parse))
  }

  /** `calls.map(...)` over the elements; `None` when one of them is `null`,
      for which reading `c.function` throws. */
  function CallsOf(cs: seq<Value>, parse: string -> Option<Value>): (r: Option<seq<ToolCall>>)
    ensures r.Some? <==> forall i :: 0 <= i < |cs| ==> !Nullish(cs[i])
    ensures r.Some? ==> |r.value| == |cs| && forall i :: 0 <= i < |cs| ==> r.value[i] == CallOf(cs[i], parse)
  {
    if cs == [] then Some([])
    else if Nullish(cs[0]) then None
    else
      match CallsOf(cs[1..], parse)
      case None => None
      case Some(rest) => Some([CallOf(cs[0], parse)] + rest)
  }

  /** `extractToolCalls(msg)`: the calls under `tool_calls`, or else under
      `additional_kwargs.tool_calls`. `None` stands for the TypeError the source
      throws when that value is truthy but not an array (it has no `map`) or
      holds a `null`. */
  function ExtractToolCalls(msg: Value, parse: string -> Option<Value>): (r: Option<seq<ToolCall>>)
    ensures Nullish(Get(msg, "tool_calls")) && Nullish(Get(Get(msg, "additional_kwargs"), "tool_calls")) ==> r == Some([])
    ensures Get(msg, "tool_calls").Arr? ==> r == CallsOf(Get(msg, "tool_calls").elems, parse)
    ensures var calls := Get(msg, "tool_calls"); Truthy(calls) && !calls.Arr? ==> r.None?
  {
    var calls := Coalesce(Get(msg, "tool_calls"), Coalesce(Get(Get(msg, "additional_kwargs"), "tool_calls"), Arr([])));
    if !Truthy(calls) then Some([])
    else if !calls.Arr? then None
    else CallsOf(calls.elems, parse)
  }

  /** `extractToolResult(msg)`. The output is read from `output`, `result`,
      `data` and `content`, in that order, and is `null` when all are absent;
      the status defaults to "success". */
  function ExtractToolResult(msg: Value): (r: ToolResult)
    ensures !Nullish(r.status) && !r.output.Undefined?
    ensures Nullish(Get(msg, "status")) ==> r.status == Str("success")
    ensures !Nullish(Get(msg, "output")) ==> r.output == Get(msg, "output")
  {
    var id := Coalesce(Get(msg, "tool_call_id"), Coalesce(Get(Get(msg, "tool_call"), "id"), Get(msg, "id")));
    var name := Coalesce(Get(msg, "name"), Coalesce(Get(msg, "tool_name"), Undefined));
    var status := Coalesce(Get(msg, "status"), Str("success"));
    var output := Coalesce(Get(msg, "output"), Coalesce(Get(msg, "result"), Coalesce(Get(msg, "data"), Coalesce(Get(msg, "content"), Null))));
    ToolResult(id, name, status, output)
  }

  /** Each field of a call is taken from the first of its alternative
      sources that is not nullish: the name from `function.name`, `name`, then
      "Tool call"; the id from `id`, `tool_call_id`, then `call_id`; the
      arguments from `function.arguments`, `args`, `input`, `parameters`, then
      `{}`, parsed when they are a string. */
  lemma CallFields(c: Value, parse: string -> Option<Value>)
    ensures !Nullish(CallOf(c, parse).name)
    ensures var fname := Get(Get(c, "function"), "name");
      && (!Nullish(fname) ==> CallOf(c, parse).name == fname)
      && (Nullish(fname) && !Nullish(Get(c, "name")) ==> CallOf(c, parse).name == Get(c, "name"))
      && (Nullish(fname) && Nullish(Get(c, "name")) ==> CallOf(c, parse).name == Str("Tool call"))
    ensures !Nullish(Get(c, "id")) ==> CallOf(c, parse).id == Get(c, "id")
    ensures Nullish(Get(c, "id")) && !Nullish(Get(c, "tool_call_id")) ==> CallOf(c, parse).id == Get(c, "tool_call_id")
    ensures Nullish(Get(c, "id")) && Nullish(Get(c, "tool_call_id")) ==> CallOf(c, parse).id == Get(c, "call_id")
    ensures Nullish(Get(c, "id")) && Nullish(Get(c, "tool_call_id")) && Nullish(Get(c, "call_id")) ==> Nullish(CallOf(c, parse).id)
    ensures var fargs := Get(Get(c, "function"), "arguments");
      && (!Nullish(fargs) ==> CallOf(c, parse).args == ParseArgs(fargs, parse))
      && (Nullish(fargs) && !Nullish(Get(c, "args")) ==> CallOf(c, parse).args == ParseArgs(Get(c, "args"), parse))
      && (Nullish(fargs) && Nullish(Get(c, "args")) && !Nullish(Get(c, "input")) ==>
            CallOf(c, parse).args == ParseArgs(Get(c, "input"), parse))
      && (Nullish(fargs) && Nullish(Get(c, "args")) && Nullish(Get(c, "input")) && !Nullish(Get(c, "parameters")) ==>
            CallOf(c, parse).args == ParseArgs(Get(c, "parameters"), parse))
      && (Nullish(fargs) && Nullish(Get(c, "args")) && Nullish(Get(c, "input")) && Nullish(Get(c, "parameters")) ==>
            CallOf(c, parse).args == Obj([]))
  {
  }

  /** The calls come from `tool_calls` unless it is nullish, and otherwise
      from `additional_kwargs.tool_calls`; an array is extracted call by call,
      any other falsy value gives no calls, any other truthy value throws. */
  lemma ToolCallsSources(msg: Value, parse: string -> Option<Value>)
    ensures var calls, kwargs := Get(msg, "tool_calls"), Get(Get(msg, "additional_kwargs"), "tool_calls");
      && (Nullish(calls) && Nullish(kwargs) ==> ExtractToolCalls(msg, parse) == Some([]))
      && (calls.Arr? ==> ExtractToolCalls(msg, parse) == CallsOf(calls.elems, parse))
      && (!Nullish(calls) && !Truthy(calls) ==> ExtractToolCalls(msg, parse) == Some([]))
      && (Truthy(calls) && !calls.Arr? ==> ExtractToolCalls(msg, parse).None?)
      && (Nullish(calls) && kwargs.Arr? ==> ExtractToolCalls(msg, parse) == CallsOf(kwargs.elems, parse))
      && (Nullish(calls) && !Nullish(kwargs) && !Truthy(kwargs) ==> ExtractToolCalls(msg, parse) == Some([]))
      && (Nullish(calls) && Truthy(kwargs) && !kwargs.Arr? ==> ExtractToolCalls(msg, parse).None?)
  {
  }

  /** Each field of a tool result is taken from the first of its alternative
      sources that is not nullish: the id from `tool_call_id`, `tool_call.id`,
      then `id`; the name from `name`, then `tool_name`; the status from
      `status`, then "success"; the output from `output`, `result`, `data`,
      `content`, then `null`. */
  lemma ToolResultFields(msg: Value)
    ensures !Nullish(ExtractToolResult(msg).status) && !ExtractToolResult(msg).output.Undefined?
    ensures !Nullish(Get(msg, "status")) ==> ExtractToolResult(msg).status == Get(msg, "status")
    ensures Nullish(Get(msg, "status")) ==> ExtractToolResult(msg).status == Str("success")
    ensures var output, result, data, content := Get(msg, "output"), Get(msg, "result"), Get(msg, "data"), Get(msg, "content");
      && (!Nullish(output) ==> ExtractToolResult(msg).output == output)
      && (Nullish(output) && !Nullish(result) ==> ExtractToolResult(msg).output == result)
      && (Nullish(output) && Nullish(result) && !Nullish(data) ==> ExtractToolResult(msg).output == data)
      && (Nullish(output) && Nullish(result) && Nullish(data) && !Nullish(content) ==> ExtractToolResult(msg).output == content)
      && (Nullish(output) && Nullish(result) && Nullish(data) && Nullish(content) ==> ExtractToolResult(msg).output == Null)
    ensures !Nullish(Get(msg, "tool_call_id")) ==> ExtractToolResult(msg).id == Get(msg, "tool_call_id")
    ensures Nullish(Get(msg, "tool_call_id")) && !Nullish(Get(Get(msg, "tool_call"), "id")) ==>
      ExtractToolResult(msg).id == Get(Get(msg, "tool_call"), "id")
    ensures Nullish(Get(msg, "tool_call_id")) && Nullish(Get(Get(msg, "tool_call"), "id")) ==> ExtractToolResult(msg).id == Get(msg, "id")
    ensures !Nullish(Get(msg, "name")) ==> ExtractToolResult(msg).name == Get(msg, "name")
    ensures Nullish(Get(msg, "name")) && !Nullish(Get(msg, "tool_name")) ==> ExtractToolResult(msg).name == Get(msg, "tool_name")
    ensures Nullish(Get(msg, "name")) && Nullish(Get(msg, "tool_name")) ==> ExtractToolResult(msg).name == Undefined
  {
  }
}
