/** The tool-dispatch loop of `get_response`.

    The language model's reply is an input value. A reply holds at most a
    message. The message holds an optional list of tool calls and an optional
    content text. Each call is dispatched in order against the file store. */
module Dispatch {

  import opened Wrappers
  import opened FileOps

  /** One tool call as the model emits it: a name and string arguments. */
  datatype ToolCall = ToolCall(name: string, arguments: map<string, string>)

  /** A key of a Python dict read with `.get`: absent, present but `None`, or
      present with a value. */
  datatype Field<T> = Missing | Null | Present(value: T)

  datatype Message = Message(toolCalls: Field<seq<ToolCall>>, content: Field<string>)

  /** The model's reply; a reply without a message reads as an empty message. */
  datatype Reply = Reply(message: Option<Message>)

  /** The tools the loop recognises. Every other name is dropped. */
  datatype Tool = CreateTool | ReadTool | DeleteTool | EditTool | AddTaskTool

  const FilenameKey: string := "filename"
  const ContentKey: string := "content"
  const TaskKey: string := "task_description"

  /** The placeholder used when the message has no content key. */
  const NoResponse: string := "\U{1F916} No model response."

  /** The tool a call name selects, if any. */
  function ToolOf(name: string): Option<Tool> {
    if name == "create_file" then Some(CreateTool)
    else if name == "read_file" then Some(ReadTool)
    else if name == "delete_file" then Some(DeleteTool)
    else if name == "edit_file" then Some(EditTool)
    else if name == "add_task" then Some(AddTaskTool)
    else None
  }

  /** Each of the five names selects its own tool, and no other name does. */
  lemma ToolNames(name: string)
    ensures ToolOf(name) == Some(CreateTool) <==> name == "create_file"
    ensures ToolOf(name) == Some(ReadTool) <==> name == "read_file"
    ensures ToolOf(name) == Some(DeleteTool) <==> name == "delete_file"
    ensures ToolOf(name) == Some(EditTool) <==> name == "edit_file"
    ensures ToolOf(name) == Some(AddTaskTool) <==> name == "add_task"
  {
  }

  predicate Recognised(call: ToolCall) {
    ToolOf(call.name).Some?
  }

  /** The argument keys a call reads. A call lacking one of them raises
      `KeyError` in `get_response`, which this model rules out by precondition. */
  predicate WellFormed(call: ToolCall) {
    match ToolOf(call.name)
    case Some(CreateTool) => FilenameKey in call.arguments && ContentKey in call.arguments
    case Some(EditTool) => FilenameKey in call.arguments && ContentKey in call.arguments
    case Some(ReadTool) => FilenameKey in call.arguments
    case Some(DeleteTool) => FilenameKey in call.arguments
    case Some(AddTaskTool) => TaskKey in call.arguments
    case None => true
  }

  predicate AllWellFormed(calls: seq<ToolCall>) {
    forall c :: c in calls ==> WellFormed(c)
  }

  /** A result line, by kind. `Render` gives its text. */
  datatype Line =
    | Created(filename: string)
    | ReadOut(filename: string, text: string)
    | Deleted(filename: string)
    | Edited(filename: string)
    | TaskAdded(description: string)
    | Said(text: string)

  /** The mark that starts a free-text line, and no other line. */
  const SpeechMark: char := '\U{1F4AC}'

  /** The exact text of a result line. */
  function Render(line: Line): string {
    match line
    case Created(f) => "\U{2705} File `" + f + "` created."
    case ReadOut(f, text) => "\U{1F4D6} Read `" + f + "`:\n" + text
    case Deleted(f) => "\U{1F5D1}\U{FE0F} File `" + f + "` deleted."
    case Edited(f) => "\U{270F}\U{FE0F} File `" + f + "` edited."
    case TaskAdded(d) => "\U{1F4DD} Task added: " + d
    case Said(text) => "\U{1F4AC} " + text
  }

  /** Every line has text, and only a free-text line starts with the speech mark. */
  lemma RenderMarksSaid()
    ensures forall l: Line :: |Render(l)| > 0 && (Render(l)[0] == SpeechMark <==> l.Said?)
  {
    forall l: Line
      ensures |Render(l)| > 0 && (Render(l)[0] == SpeechMark <==> l.Said?)
    {
    }
  }

  /** The text of each line, in order. */
  function RenderAll(lines: seq<Line>): (r: seq<string>)
    ensures |r| == |lines|
    ensures forall i :: 0 <= i < |lines| ==> r[i] == Render(lines[i])
  {
    seq(|lines|, i requires 0 <= i < |lines| => Render(lines[i]))
  }

  /** The effect of one call: the store after it, and its result line if any. */
  datatype Effect = Effect(store: Store, line: Option<Line>)

  /** One iteration of the loop body: dispatch on the name, act on the store,
      and describe the action. `delete_file`'s return value is discarded. */
  function Step(store: Store, call: ToolCall): (r: Effect)
    requires WellFormed(call)
    ensures r.line.Some? <==> Recognised(call)
    ensures !Recognised(call) ==> r.store == store
    ensures ToolOf(call.name) == Some(CreateTool) || ToolOf(call.name) == Some(EditTool) ==>
              r.store == CreateFile(store, call.arguments[FilenameKey], call.arguments[ContentKey])
    ensures ToolOf(call.name) == Some(DeleteTool) ==>
              r.store == DeleteFile(store, call.arguments[FilenameKey]).store
    ensures ToolOf(call.name) == Some(ReadTool) || ToolOf(call.name) == Some(AddTaskTool) ==>
              r.store == store
  {
    var args := call.arguments;
    match ToolOf(call.name)
    case Some(CreateTool) =>
      Effect(CreateFile(store, args[FilenameKey], args[ContentKey]), Some(Created(args[FilenameKey])))
    case Some(ReadTool) =>
      Effect(store, Some(ReadOut(args[FilenameKey], ReadFile(store, args[FilenameKey]))))
    case Some(DeleteTool) =>
      // the helper's return value (the not-found text, if any) is dropped
      Effect(DeleteFile(store, args[FilenameKey]).store, Some(Deleted(args[FilenameKey])))
    case Some(EditTool) =>
      Effect(CreateFile(store, args[FilenameKey], args[ContentKey]), Some(Edited(args[FilenameKey])))
    case Some(AddTaskTool) =>
      Effect(store, Some(TaskAdded(args[TaskKey])))
    case None =>
      Effect(store, None)
  }

  /** The calls the loop acts on, in their original order. */
  function Known(calls: seq<ToolCall>): (r: seq<ToolCall>)
    ensures forall c :: c in r ==> c in calls && Recognised(c)
    ensures forall c :: c in calls && Recognised(c) ==> c in r
    ensures |r| <= |calls|
  {
    if calls == [] then []
    else if Recognised(calls[0]) then [calls[0]] + Known(calls[1..])
    else Known(calls[1..])
  }

  /** Filtering keeps every recognised call as often as it occurs, and drops
      every other call. */
  lemma {:induction false} KnownKeepsCounts(calls: seq<ToolCall>)
    ensures forall c :: multiset(Known(calls))[c] == if Recognised(c) then multiset(calls)[c] else 0
    decreases |calls|
  {
    if calls != [] {
      assert calls == [calls[0]] + calls[1..];
      KnownKeepsCounts(calls[1..]);
    }
  }

  /** The store and result lines after a batch of calls. */
  datatype Batch = Batch(store: Store, lines: seq<Line>)

  /** The `for call in tool_calls` loop as a fold: each call runs against the
      store its predecessors left, and its line follows theirs. */
  function Run(store: Store, calls: seq<ToolCall>): (r: Batch)
    requires AllWellFormed(calls)
    ensures |r.lines| == |Known(calls)|
    ensures Known(calls) == [] ==> r.store == store
    decreases |calls|
  {
    if calls == [] then Batch(store, [])
    else
      var e := Step(store, calls[0]);
      var rest := Run(e.store, calls[1..]);
      Batch(rest.store, e.line.ToSeq() + rest.lines)
  }

  /** One turn of the loop: the first call runs, then the rest. */
  lemma RunStep(store: Store, calls: seq<ToolCall>)
    requires calls != [] && AllWellFormed(calls)
    ensures AllWellFormed(calls[1..])
    ensures Run(store, calls).store == Run(Step(store, calls[0]).store, calls[1..]).store
    ensures Run(store, calls).lines
         == Step(store, calls[0]).line.ToSeq() + Run(Step(store, calls[0]).store, calls[1..]).lines
  {
  }

  /** The loop's lines never include a free-text line. */
  lemma {:induction false} RunSaysNothing(store: Store, calls: seq<ToolCall>)
    requires AllWellFormed(calls)
    ensures forall l :: l in Run(store, calls).lines ==> !l.Said?
    decreases |calls|
  {
    if calls != [] {
      RunStep(store, calls);
      RunSaysNothing(Step(store, calls[0]).store, calls[1..]);
    }
  }

  /** Python truthiness of `tool_calls`: a missing, null or empty list is false. */
  predicate HasToolCalls(reply: Reply) {
    reply.message.Some? && reply.message.value.toolCalls.Present?
    && reply.message.value.toolCalls.value != []
  }

  /** The calls of a reply, empty when there are none. */
  function CallsOf(reply: Reply): (r: seq<ToolCall>)
    ensures HasToolCalls(reply) <==> r != []
    ensures HasToolCalls(reply) ==> r == reply.message.value.toolCalls.value
  {
    if HasToolCalls(reply) then reply.message.value.toolCalls.value else []
  }

  /** No message, a missing, null or empty `tool_calls` all select the free-text
      branch; a non-empty list selects the loop over exactly that list. */
  lemma ToolCallsTruthiness(content: Field<string>, calls: seq<ToolCall>)
    ensures !HasToolCalls(Reply(None))
    ensures !HasToolCalls(Reply(Some(Message(Missing, content))))
    ensures !HasToolCalls(Reply(Some(Message(Null, content))))
    ensures !HasToolCalls(Reply(Some(Message(Present([]), content))))
    ensures calls != [] ==> HasToolCalls(Reply(Some(Message(Present(calls), content))))
                            && CallsOf(Reply(Some(Message(Present(calls), content)))) == calls
  {
  }

  /** `raw_text`: the content, the placeholder when the content key (or the
      whole message) is missing, and the text `None` for a null content, as a
      Python f-string renders it. */
  function RawText(reply: Reply): (r: string)
    ensures r == NoResponse <==>
              reply.message.None? || reply.message.value.content.Missing?
              || reply.message.value.content == Present(NoResponse)
    ensures r == "None" <==>
              reply.message.Some?
              && (reply.message.value.content.Null? || reply.message.value.content == Present("None"))
    ensures reply.message.Some? && reply.message.value.content.Present? ==>
              r == reply.message.value.content.value
  {
    match reply.message
    case None => NoResponse
    case Some(m) =>
      match m.content
      case Missing => NoResponse
      case Null => "None"
      case Present(text) => text
  }

  /** The `task_table` slot. `get_response` never fills it and the program
      defines no type for it, so this stand-in carries no content. */
  datatype TaskTable = TaskTable

  /** What `get_response` produces: its two return values, and the store its
      calls left behind. */
  datatype Response = Response(results: seq<string>, taskTable: Option<TaskTable>, store: Store)

  predicate Callable(reply: Reply) {
    AllWellFormed(CallsOf(reply))
  }

  /** `get_response` after the model call: tool results or free text, never both. */
  function Respond(store: Store, reply: Reply): (r: Response)
    requires Callable(reply)
    ensures r.taskTable == None
    ensures HasToolCalls(reply) ==> |r.results| == |Known(CallsOf(reply))|
    ensures HasToolCalls(reply) ==>
              forall i :: 0 <= i < |r.results| ==> |r.results[i]| > 0 && r.results[i][0] != SpeechMark
    ensures !HasToolCalls(reply) ==>
              |r.results| == 1 && r.results[0] == [SpeechMark, ' '] + RawText(reply) && r.store == store
  {
    if HasToolCalls(reply) then
      var b := Run(store, CallsOf(reply));
      RunSaysNothing(store, CallsOf(reply));
      RenderMarksSaid();
      Response(RenderAll(b.lines), None, b.store)
    else
      Response([Render(Said(RawText(reply)))], None, store)
  }

  /** `get_response` as it is written, after the model call: tool
      results or free text. It computes what `Respond` says. */
  method GetResponse(store: Store, reply: Reply) returns (results: seq<string>, taskTable: Option<TaskTable>, store': Store)
    requires Callable(reply)
    ensures Response(results, taskTable, store') == Respond(store, reply)
  {
    var calls := CallsOf(reply);
    var raw := RawText(reply);
    taskTable := None;
    if calls != [] {
      results, store' := DispatchCalls(store, calls);
    } else {
      results := [Render(Said(raw))];
      store' := store;
    }
  }

  /** The `for call in tool_calls` loop as `get_response` writes it: the store is
      updated in place and the text of each line is appended to `results`. */
  method DispatchCalls(store: Store, calls: seq<ToolCall>) returns (results: seq<string>, store': Store)
    requires AllWellFormed(calls)
    ensures results == RenderAll(Run(store, calls).lines)
    ensures store' == Run(store, calls).store
  {
    results := [];
    store' := store;
    ghost var lines: seq<Line> := [];
    var i := 0;
    while i < |calls|
      invariant 0 <= i <= |calls|
      invariant AllWellFormed(calls[i..])
      invariant results == RenderAll(lines)
      invariant Run(store, calls).store == Run(store', calls[i..]).store
      invariant Run(store, calls).lines == lines + Run(store', calls[i..]).lines
    {
      RunStep(store', calls[i..]);
      assert calls[i..][0] == calls[i] && calls[i..][1..] == calls[i + 1..];
      var e := Step(store', calls[i]);
      if e.line.Some? {
        RenderAllSnoc(lines, e.line.value);
        results := results + [Render(e.line.value)];
      }
      AppendAssoc(lines, e.line.ToSeq(), Run(e.store, calls[i + 1..]).lines);
      lines := lines + e.line.ToSeq();
      store' := e.store;
      i := i + 1;
    }
    assert calls[i..] == [];
  }

  lemma RenderAllSnoc(lines: seq<Line>, line: Line)
    ensures RenderAll(lines + [line]) == RenderAll(lines) + [Render(line)]
  {
  }

  lemma AppendAssoc<T>(a: seq<T>, b: seq<T>, c: seq<T>)
    ensures a + (b + c) == (a + b) + c
  {
  }
}
