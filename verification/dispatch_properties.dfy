/** What the dispatch loop promises, stated over all stores and all call
    sequences. */
module DispatchProperties {

  import opened Wrappers
  import opened FileOps
  import opened Dispatch

  /** An `edit_file` call changes the store exactly as a `create_file` call
      with the same arguments; only the result line tells them apart. */
  lemma EditIsCreate(store: Store, arguments: map<string, string>)
    requires FilenameKey in arguments && ContentKey in arguments
    ensures Step(store, ToolCall("edit_file", arguments)).store
         == Step(store, ToolCall("create_file", arguments)).store
    ensures Step(store, ToolCall("edit_file", arguments)).line == Some(Edited(arguments[FilenameKey]))
    ensures Step(store, ToolCall("create_file", arguments)).line == Some(Created(arguments[FilenameKey]))
    ensures Render(Edited(arguments[FilenameKey])) != Render(Created(arguments[FilenameKey]))
  {
    var f := arguments[FilenameKey];
    assert Render(Edited(f))[0] != Render(Created(f))[0];
  }

  /** The `delete_file` line always says the file was deleted: the helper's
      not-found text for a missing file never reaches the results. */
  lemma DeleteLineIgnoresSentinel(store: Store, arguments: map<string, string>)
    requires FilenameKey in arguments
    ensures Step(store, ToolCall("delete_file", arguments)).line == Some(Deleted(arguments[FilenameKey]))
    ensures arguments[FilenameKey] !in store ==>
              DeleteFile(store, arguments[FilenameKey]).returned == Some(NotFound)
              && Step(store, ToolCall("delete_file", arguments)).store == store
  {
  }

  /** `add_task` records nothing: the store is untouched and one line is emitted. */
  lemma AddTaskOnlyReports(store: Store, arguments: map<string, string>)
    requires TaskKey in arguments
    ensures Step(store, ToolCall("add_task", arguments))
         == Effect(store, Some(TaskAdded(arguments[TaskKey])))
  {
  }

  /** A `read_file` line carries the file content as a text-mode read returns
      it, or the not-found text. */
  lemma ReadLineShowsContent(store: Store, arguments: map<string, string>)
    requires FilenameKey in arguments
    ensures arguments[FilenameKey] in store ==>
              Step(store, ToolCall("read_file", arguments)).line
              == Some(ReadOut(arguments[FilenameKey], UniversalNewlines(store[arguments[FilenameKey]])))
    ensures arguments[FilenameKey] !in store ==>
              Step(store, ToolCall("read_file", arguments)).line
              == Some(ReadOut(arguments[FilenameKey], NotFound))
    ensures Step(store, ToolCall("read_file", arguments)).store == store
  {
  }

  /** A call with any other name is dropped without a trace. */
  lemma UnknownCallIsDropped(store: Store, call: ToolCall)
    requires !Recognised(call)
    ensures Step(store, call) == Effect(store, None)
  {
  }

  /** Running two batches back to back is running their concatenation: the
      lines of the first batch come first, and the second batch sees the
      store the first left. */
  lemma {:induction false} RunAppend(store: Store, first: seq<ToolCall>, second: seq<ToolCall>)
    requires AllWellFormed(first) && AllWellFormed(second)
    ensures AllWellFormed(first + second)
    ensures Run(store, first + second)
         == Batch(Run(Run(store, first).store, second).store,
                  Run(store, first).lines + Run(Run(store, first).store, second).lines)
    decreases |first|
  {
    if first == [] {
      assert first + second == second;
    } else {
      var e := Step(store, first[0]);
      assert (first + second)[0] == first[0];
      assert (first + second)[1..] == first[1..] + second;
      RunAppend(e.store, first[1..], second);
      assert e.line.ToSeq() + (Run(e.store, first[1..]).lines + Run(Run(e.store, first[1..]).store, second).lines)
          == (e.line.ToSeq() + Run(e.store, first[1..]).lines) + Run(Run(e.store, first[1..]).store, second).lines;
    }
  }

  /** Dropping the unrecognised calls up front changes nothing: they emit no
      line and do not touch the store. */
  lemma {:induction false} RunIgnoresUnknown(store: Store, calls: seq<ToolCall>)
    requires AllWellFormed(calls)
    ensures AllWellFormed(Known(calls))
    ensures Run(store, calls) == Run(store, Known(calls))
    decreases |calls|
  {
    if calls != [] {
      var e := Step(store, calls[0]);
      RunStep(store, calls);
      RunIgnoresUnknown(e.store, calls[1..]);
      var k := Known(calls);
      if Recognised(calls[0]) {
        assert k == [calls[0]] + Known(calls[1..]);
        assert k[0] == calls[0] && k[1..] == Known(calls[1..]);
        RunStep(store, k);
      } else {
        assert k == Known(calls[1..]);
        assert e == Effect(store, None);
      }
    }
  }

  /** Filtering distributes over concatenation, so it keeps the order of the
      calls. */
  lemma {:induction false} KnownAppend(first: seq<ToolCall>, second: seq<ToolCall>)
    ensures Known(first + second) == Known(first) + Known(second)
    decreases |first|
  {
    if first == [] {
      assert first + second == second;
    } else {
      assert (first + second)[0] == first[0];
      assert (first + second)[1..] == first[1..] + second;
      KnownAppend(first[1..], second);
    }
  }

  /** Every call of the batch has a recognised name. */
  predicate AllRecognised(calls: seq<ToolCall>) {
    forall c :: c in calls ==> Recognised(c)
  }

  /** Filtering a sequence of recognised calls keeps all of it. */
  lemma {:induction false} KnownOfRecognised(calls: seq<ToolCall>)
    requires AllRecognised(calls)
    ensures Known(calls) == calls
    decreases |calls|
  {
    if calls != [] {
      KnownOfRecognised(calls[1..]);
      assert [calls[0]] + calls[1..] == calls;
    }
  }

  /** When every name is recognised, there is exactly one line per call. */
  lemma OneLinePerCall(store: Store, calls: seq<ToolCall>)
    requires AllWellFormed(calls) && AllRecognised(calls)
    ensures |Run(store, calls).lines| == |calls|
  {
    KnownOfRecognised(calls);
  }

  /** The i-th result line is the line of the i-th recognised call, run
      against the store the recognised calls before it left. */
  lemma RunLineOrder(store: Store, calls: seq<ToolCall>, i: nat)
    requires AllWellFormed(calls)
    requires i < |Known(calls)|
    ensures AllWellFormed(Known(calls)[..i])
    ensures Run(store, calls).lines[i]
         == Step(Run(store, Known(calls)[..i]).store, Known(calls)[i]).line.value
  {
    RunIgnoresUnknown(store, calls);
    LineAt(store, Known(calls), i);
  }

  /** The position-wise form of `RunAppend` for a batch of recognised calls. */
  lemma LineAt(store: Store, calls: seq<ToolCall>, i: nat)
    requires AllWellFormed(calls) && AllRecognised(calls)
    requires i < |calls|
    ensures AllWellFormed(calls[..i])
    ensures |Run(store, calls).lines| == |calls|
    ensures Run(store, calls).lines[i] == Step(Run(store, calls[..i]).store, calls[i]).line.value
  {
    KnownOfRecognised(calls);
    var prefix, suffix := calls[..i], calls[i..];
    SplitRecognised(calls, i);
    RunAppend(store, prefix, suffix);
    var before := Run(store, prefix);
    var after := Run(before.store, suffix);
    assert |before.lines| == i;
    assert Run(store, calls).lines[i] == after.lines[0];
    RunStep(before.store, suffix);
  }

  /** Both halves of a batch of recognised, well-formed calls are again such
      batches. */
  lemma SplitRecognised(calls: seq<ToolCall>, i: nat)
    requires AllWellFormed(calls) && AllRecognised(calls)
    requires i < |calls|
    ensures calls[..i] + calls[i..] == calls
    ensures AllWellFormed(calls[..i]) && AllWellFormed(calls[i..])
    ensures Known(calls[..i]) == calls[..i]
    ensures calls[i..] != [] && calls[i..][0] == calls[i] && Recognised(calls[i])
  {
    SliceMembers(calls, i);
    KnownOfRecognised(calls[..i]);
  }

  /** Every element of a slice is an element of the whole sequence. */
  lemma SliceMembers<T>(s: seq<T>, i: nat)
    requires i < |s|
    ensures s[..i] + s[i..] == s
    ensures forall x :: x in s[..i] ==> x in s
    ensures forall x :: x in s[i..] ==> x in s
    ensures s[i] in s && s[i..][0] == s[i]
  {
  }

  /** The i-th text of the response is the rendering of the i-th recognised
      call's line. */
  lemma ResultsInCallOrder(store: Store, reply: Reply, i: nat)
    requires Callable(reply) && HasToolCalls(reply)
    requires i < |Known(CallsOf(reply))|
    ensures AllWellFormed(Known(CallsOf(reply))[..i])
    ensures AllWellFormed(Known(CallsOf(reply)))
    ensures |Respond(store, reply).results| == |Known(CallsOf(reply))|
    ensures Respond(store, reply).results[i]
         == Render(Step(Run(store, Known(CallsOf(reply))[..i]).store, Known(CallsOf(reply))[i]).line.value)
    ensures Respond(store, reply).store == Run(store, Known(CallsOf(reply))).store
  {
    RunLineOrder(store, CallsOf(reply), i);
    RunIgnoresUnknown(store, CallsOf(reply));
  }

  /** Lines of different kinds never render to the same text, so the kind of
      every result is visible in its text. */
  lemma RenderKeepsKind(a: Line, b: Line)
    requires Render(a) == Render(b)
    ensures a.Created? <==> b.Created?
    ensures a.ReadOut? <==> b.ReadOut?
    ensures a.Deleted? <==> b.Deleted?
    ensures a.Edited? <==> b.Edited?
    ensures a.TaskAdded? <==> b.TaskAdded?
    ensures a.Said? <==> b.Said?
  {
    assert Render(a)[0] == Render(b)[0];
  }

  /** The file names a batch can write or remove. */
  function Touched(calls: seq<ToolCall>): (r: set<string>)
    requires AllWellFormed(calls)
    decreases |calls|
  {
    if calls == [] then {}
    else
      var c := calls[0];
      assert c in calls;
      var here :=
        match ToolOf(c.name)
        case Some(CreateTool) => {c.arguments[FilenameKey]}
        case Some(EditTool) => {c.arguments[FilenameKey]}
        case Some(DeleteTool) => {c.arguments[FilenameKey]}
        case _ => {};
      here + Touched(calls[1..])
  }

  /** Two stores agree on one file name. */
  predicate SameEntry(a: Store, b: Store, g: string) {
    (g in a <==> g in b) && (g in a ==> a[g] == b[g])
  }

  /** A batch leaves every file it does not name as it was. */
  lemma {:induction false} RunFrame(store: Store, calls: seq<ToolCall>, g: string)
    requires AllWellFormed(calls)
    requires g !in Touched(calls)
    ensures SameEntry(Run(store, calls).store, store, g)
    decreases |calls|
  {
    if calls != [] {
      var e := Step(store, calls[0]);
      RunFrame(e.store, calls[1..], g);
    }
  }

  /** With tool calls present, the content text plays no part in the response. */
  lemma ToolCallsOverrideText(store: Store, calls: seq<ToolCall>, text1: Field<string>, text2: Field<string>)
    requires calls != [] && AllWellFormed(calls)
    ensures Callable(Reply(Some(Message(Present(calls), text1))))
    ensures Callable(Reply(Some(Message(Present(calls), text2))))
    ensures Respond(store, Reply(Some(Message(Present(calls), text1))))
         == Respond(store, Reply(Some(Message(Present(calls), text2))))
  {
  }

  /** Without tool calls there is exactly one line, and it is the placeholder
      exactly when the content key is missing (or holds the placeholder text). */
  lemma PlaceholderOnlyForMissingContent(store: Store, reply: Reply)
    requires !HasToolCalls(reply)
    ensures Callable(reply)
    ensures |Respond(store, reply).results| == 1
    ensures Respond(store, reply).results == [Render(Said(NoResponse))]
        <==> reply.message.None? || reply.message.value.content.Missing?
             || reply.message.value.content == Present(NoResponse)
  {
    if Respond(store, reply).results == [Render(Said(NoResponse))] {
      SaidInjective(RawText(reply), NoResponse);
    }
  }

  lemma SaidInjective(a: string, b: string)
    requires Render(Said(a)) == Render(Said(b))
    ensures a == b
  {
    assert a == Render(Said(a))[|Render(Said(""))|..];
  }

  /** Creating `notes.txt` and reading it back gives its content. */
  lemma NotesCreateReadScenario()
    ensures
      var create := ToolCall("create_file", map["filename" := "notes.txt", "content" := "hello"]);
      var read := ToolCall("read_file", map["filename" := "notes.txt"]);
      && AllWellFormed([create, read])
      && Run(map[], [create, read])
         == Batch(map["notes.txt" := "hello"], [Created("notes.txt"), ReadOut("notes.txt", "hello")])
  {
    var written: Store := map["notes.txt" := "hello"];
    assert '\r' !in "hello";
    assert ReadFile(written, "notes.txt") == "hello";
  }

  /** Deleting `notes.txt` and reading it again gives the not-found text. */
  lemma NotesDeleteReadScenario()
    ensures
      var delete := ToolCall("delete_file", map["filename" := "notes.txt"]);
      var read := ToolCall("read_file", map["filename" := "notes.txt"]);
      && AllWellFormed([delete, read])
      && Run(map["notes.txt" := "hello"], [delete, read])
         == Batch(map[], [Deleted("notes.txt"), ReadOut("notes.txt", NotFound)])
  {
    var written: Store := map["notes.txt" := "hello"];
    assert written - {"notes.txt"} == map[];
  }

  /** A task then a file: two lines, in the order the calls were given. */
  lemma TaskThenCreateScenario(store: Store)
    ensures
      var task := ToolCall("add_task", map["task_description" := "buy milk"]);
      var create := ToolCall("create_file", map["filename" := "a.txt", "content" := "x"]);
      && AllWellFormed([task, create])
      && Run(store, [task, create]).lines == [TaskAdded("buy milk"), Created("a.txt")]
      && Run(store, [task, create]).store == store["a.txt" := "x"]
  {
  }
}
