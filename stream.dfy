/**
  The event stream of a whole trace: the hooks the host calls on one
  session, in call order, and the documents they send. Warnings are
  interleaved with the events; taking them out leaves exactly one event per
  hook that reports something, in hook order.
 */
module Stream {
  import opened Wrappers
  import opened Json
  import opened Events

  /** One call of a hook from the backend's handler table. */
  datatype Hook =
    | Header(request: Request)
    | Footer
    | Entry(fse: Frame, timestamp: real)
    | Exit(fse: Frame, timestamp: real)
    | ReturnValue(fse: Frame, returnValue: Value)
    | GeneratorReturn(fse: Frame)
    | Assign(fse: Frame)

  /** The documents one hook sends, in order. */
  function HookOutput(h: Hook): seq<Json>
  {
    match h
    case Header(request) => HeaderOutput(request)
    case Footer => []
    case Entry(fse, timestamp) => EntryOutput(fse, timestamp)
    case Exit(fse, timestamp) => ExitOutput(fse, timestamp)
    case ReturnValue(fse, returnValue) => ReturnOutput(fse, returnValue)
    case GeneratorReturn(_) => []
    case Assign(_) => []
  }

  /** The event a hook reports, without its warnings: none for the hooks that send nothing. */
  function HookEvent(h: Hook): seq<Json>
  {
    match h
    case Header(request) => [RequestEvent(request)]
    case Footer => []
    case Entry(fse, timestamp) => [CallEvent(fse, timestamp)]
    case Exit(fse, timestamp) => [ExitEvent(fse, timestamp)]
    case ReturnValue(fse, returnValue) => [ReturnEvent(fse, returnValue)]
    case GeneratorReturn(_) => []
    case Assign(_) => []
  }

  /** The `type` a hook's event carries ("" for the hooks that send nothing). */
  function HookKind(h: Hook): string
  {
    match h
    case Header(_) => "request"
    case Entry(_, _) => "call"
    case Exit(_, _) => "exit"
    case ReturnValue(_, _) => "return"
    case _ => ""
  }

  /** Everything a session sends for the hooks `hs`, called in order. */
  function Output(hs: seq<Hook>): seq<Json>
  {
    if hs == [] then [] else Output(hs[..|hs| - 1]) + HookOutput(hs[|hs| - 1])
  }

  /** The events of the hooks `hs`, in order. */
  function Reported(hs: seq<Hook>): seq<Json>
  {
    if hs == [] then [] else Reported(hs[..|hs| - 1]) + HookEvent(hs[|hs| - 1])
  }

  /** The kinds of the hooks in `hs` that report an event, in order. */
  function ReportedKinds(hs: seq<Hook>): seq<string>
  {
    if hs == [] then []
    else ReportedKinds(hs[..|hs| - 1]) + (if HookKind(hs[|hs| - 1]) == "" then [] else [HookKind(hs[|hs| - 1])])
  }

  /** The documents of `docs` that are not warnings, in order. */
  function NonWarnings(docs: seq<Json>): seq<Json>
  {
    if docs == [] then []
    else NonWarnings(docs[..|docs| - 1]) + (if KindOf(docs[|docs| - 1]) == "warning" then [] else [docs[|docs| - 1]])
  }

  /** The `type` of each document. */
  function Kinds(docs: seq<Json>): seq<string>
  {
    seq(|docs|, i requires 0 <= i < |docs| => KindOf(docs[i]))
  }

  // ---------------------------------------------------------------------
  // Lemmas

  lemma {:induction false} NonWarningsAppend(a: seq<Json>, b: seq<Json>)
    ensures NonWarnings(a + b) == NonWarnings(a) + NonWarnings(b)
  {
    if b != [] {
      var c := a + b;
      assert c[..|c| - 1] == a + b[..|b| - 1];
      assert c[|c| - 1] == b[|b| - 1];
      NonWarningsAppend(a, b[..|b| - 1]);
    } else {
      assert a + b == a;
    }
  }

  /** Filtering a run of warnings leaves nothing. */
  lemma {:induction false} NonWarningsOfWarnings(docs: seq<Json>)
    requires AllWarnings(docs)
    ensures NonWarnings(docs) == []
  {
    if docs != [] {
      var init := docs[..|docs| - 1];
      assert forall i :: 0 <= i < |init| ==> init[i] == docs[i];
      NonWarningsOfWarnings(init);
    }
  }

  /** A hook's output holds its event, if any, after warnings only. */
  lemma HookOutputSplit(h: Hook)
    ensures NonWarnings(HookOutput(h)) == HookEvent(h)
  {
    match h
    case Header(request) => HeaderSplit(request);
    case Entry(fse, timestamp) => EntrySplit(fse, timestamp);
    case Exit(fse, timestamp) => ExitSplit(fse, timestamp);
    case ReturnValue(fse, returnValue) => ReturnSplit(fse, returnValue);
    case _ =>
  }

  lemma HeaderSplit(request: Request)
    ensures NonWarnings(HeaderOutput(request)) == [RequestEvent(request)]
    ensures KindOf(RequestEvent(request)) == "request"
  {
    HeaderOutputOrder(request);
    ThenEvent(HeaderOutput(request), RequestEvent(request));
  }

  lemma EntrySplit(fse: Frame, timestamp: real)
    ensures NonWarnings(EntryOutput(fse, timestamp)) == [CallEvent(fse, timestamp)]
    ensures KindOf(CallEvent(fse, timestamp)) == "call"
  {
    var event := CallEvent(fse, timestamp);
    CallKind(fse, timestamp);
    var warnings := if fse.includeFilename.Some? then [] else ArgWarnings(fse.vars);
    ArgWarningsCount(fse.vars);
    NonWarningsOfWarnings(warnings);
    NonWarningsAppend(warnings, [event]);
    assert [event][..0] == [];
  }

  lemma CallKind(fse: Frame, timestamp: real)
    ensures KindOf(CallEvent(fse, timestamp)) == "call"
  {
  }

  lemma ExitSplit(fse: Frame, timestamp: real)
    ensures NonWarnings(ExitOutput(fse, timestamp)) == [ExitEvent(fse, timestamp)]
    ensures KindOf(ExitEvent(fse, timestamp)) == "exit"
  {
  }

  lemma ReturnSplit(fse: Frame, returnValue: Value)
    ensures NonWarnings(ReturnOutput(fse, returnValue)) == [ReturnEvent(fse, returnValue)]
    ensures KindOf(ReturnEvent(fse, returnValue)) == "return"
  {
    ReturnEventShape(fse, returnValue);
    ThenEvent(ReturnOutput(fse, returnValue), ReturnEvent(fse, returnValue));
  }

  /** The kind of a hook's event is the hook's kind. */
  lemma HookEventKind(h: Hook)
    ensures Kinds(HookEvent(h)) == (if HookKind(h) == "" then [] else [HookKind(h)])
  {
  }

  lemma KindsAppend(a: seq<Json>, b: seq<Json>)
    ensures Kinds(a + b) == Kinds(a) + Kinds(b)
  {
  }

  /** Filtering warnings followed by one non-warning event leaves the event. */
  lemma ThenEvent(out: seq<Json>, event: Json)
    requires |out| >= 1 && out[|out| - 1] == event
    requires AllWarnings(out[..|out| - 1])
    requires KindOf(event) != "warning"
    ensures NonWarnings(out) == [event]
  {
    NonWarningsOfWarnings(out[..|out| - 1]);
  }

  /** Without its warnings, a session's output is exactly one event per reporting hook, in hook order. */
  lemma {:induction false} EventsInHookOrder(hs: seq<Hook>)
    ensures NonWarnings(Output(hs)) == Reported(hs)
  {
    if hs != [] {
      var n := |hs| - 1;
      EventsInHookOrder(hs[..n]);
      NonWarningsAppend(Output(hs[..n]), HookOutput(hs[n]));
      HookOutputSplit(hs[n]);
    }
  }

  /** The event kinds of a session's output name the reporting hooks, in the order they were called. */
  lemma {:induction false} KindsInHookOrder(hs: seq<Hook>)
    ensures Kinds(Reported(hs)) == ReportedKinds(hs)
  {
    if hs != [] {
      var n := |hs| - 1;
      KindsInHookOrder(hs[..n]);
      HookEventKind(hs[n]);
      KindsAppend(Reported(hs[..n]), HookEvent(hs[n]));
    }
  }

  /** One more hook call appends that hook's output. */
  lemma OutputSnoc(hs: seq<Hook>, h: Hook)
    ensures Output(hs + [h]) == Output(hs) + HookOutput(h)
  {
  }
}
