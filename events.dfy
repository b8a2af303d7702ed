/**
  The value serializer and the event encoder: what each hook of the Fracker
  backend sends, stated as functions of the hook's inputs. Each hook sends
  the warnings its conversions caused, then its one event.
 */
module Events {
  import opened Wrappers
  import opened Json

  /**
    What the host's encoder makes of a runtime value: php_json_encode with
    partial output on error, whose text json_tokener_parse reads back.
   */
  datatype Encoding =
    | Representable(json: Json)  // text produced and parsed back to `json`
    | Unparsable                 // text produced, but the parser returned NULL
    | Opaque                     // no text produced at all

  /**
    A runtime value (zval) together with what the host's renderers print for
    it: the one-line preview (xdebug_get_zval_value_line) and the type
    synopsis (xdebug_get_zval_synopsis_line).
   */
  datatype Value = Value(encoding: Encoding, preview: string, synopsis: string)

  /** One entry of a frame's `var` array: an optional name and its value. */
  datatype Arg = Arg(name: Option<string>, data: Value)

  /**
    The fields of a call-stack frame (function_stack_entry) that the backend
    reads; `function` is the name xdebug_show_fname prints and
    `includeFilename` is set for include/require.
   */
  datatype Frame = Frame(
    functionNr: int,
    level: int,
    functionName: string,
    filename: string,
    lineno: int,
    includeFilename: Option<string>,
    vars: seq<Arg>)

  /**
    The request context: the server, get, post and cookie globals, and the
    body read from php://input (None when nothing could be read).
   */
  datatype Request = Request(server: Value, get: Value, post: Value, cookie: Value, input: Option<string>)

  /** zval_to_json's return code and out-parameter. */
  datatype Conversion = Conversion(ok: bool, json: Json)

  const InvalidConversion := "Invalid JSON conversion for "

  /** zval_to_json: failure only when the encoder produced no text. */
  function ZvalToJson(value: Value): (r: Conversion)
    ensures r.ok <==> !value.encoding.Opaque?
    ensures !r.ok ==> r.json == JNull
    ensures value.encoding.Representable? ==> r.json == value.encoding.json
    ensures value.encoding.Unparsable? ==> r.ok && r.json == JNull
  {
    match value.encoding
    case Representable(j) => Conversion(true, j)
    case Unparsable => Conversion(true, JNull)
    case Opaque => Conversion(false, JNull)
  }

  function Warning(message: string): Json
  {
    JObject([("type", JString("warning")), ("message", JString(message))])
  }

  /** What add_json_zval transmits before it sets its key. */
  function FieldWarnings(value: Value): seq<Json>
  {
    if ZvalToJson(value).ok then [] else [Warning(InvalidConversion + value.preview)]
  }

  /** The two members add_json_typed_zval appends: `value`, then `type`. */
  function TypedMembers(value: Value): seq<Member>
  {
    [("value", ZvalToJson(value).json), ("type", JString(value.synopsis))]
  }

  function NameMembers(name: Option<string>): seq<Member>
  {
    if name.Some? then [("name", JString(name.value))] else []
  }

  /** One element of a call event's `arguments` for an ordinary call. */
  function ArgumentJson(arg: Arg): Json
  {
    JObject(NameMembers(arg.name) + TypedMembers(arg.data))
  }

  /** The `arguments` array of a call event. */
  function Arguments(fse: Frame): seq<Json>
  {
    match fse.includeFilename
    case Some(path) => [JObject([("value", JString(path))])]
    case None => seq(|fse.vars|, i requires 0 <= i < |fse.vars| => ArgumentJson(fse.vars[i]))
  }

  /** The warnings the argument loop transmits, in argument order. */
  function ArgWarnings(vars: seq<Arg>): seq<Json>
  {
    if vars == [] then []
    else ArgWarnings(vars[..|vars| - 1]) + FieldWarnings(vars[|vars| - 1].data)
  }

  function InputJson(input: Option<string>): Json
  {
    if input.Some? then JString(input.value) else JNull
  }

  function RequestEvent(req: Request): Json
  {
    JObject([
      ("type", JString("request")),
      ("server", ZvalToJson(req.server).json),
      ("get", ZvalToJson(req.get).json),
      ("post", ZvalToJson(req.post).json),
      ("cookie", ZvalToJson(req.cookie).json),
      ("input", InputJson(req.input))])
  }

  function CallEvent(fse: Frame, timestamp: real): Json
  {
    JObject([
      ("type", JString("call")),
      ("id", JInt(fse.functionNr)),
      ("level", JInt(fse.level)),
      ("timestamp", JDouble(timestamp)),
      ("function", JString(fse.functionName)),
      ("file", JString(fse.filename)),
      ("line", JInt(fse.lineno)),
      ("arguments", JArray(Arguments(fse)))])
  }

  function ExitEvent(fse: Frame, timestamp: real): Json
  {
    JObject([
      ("type", JString("exit")),
      ("id", JInt(fse.functionNr)),
      ("level", JInt(fse.level)),
      ("timestamp", JDouble(timestamp))])
  }

  function ReturnEvent(fse: Frame, returnValue: Value): Json
  {
    JObject([
      ("type", JString("return")),
      ("id", JInt(fse.functionNr)),
      ("level", JInt(fse.level)),
      ("return", JObject(TypedMembers(returnValue)))])
  }

  /** Everything write_header transmits. */
  function HeaderOutput(req: Request): seq<Json>
  {
    FieldWarnings(req.server) + FieldWarnings(req.get) + FieldWarnings(req.post) + FieldWarnings(req.cookie)
    + [RequestEvent(req)]
  }

  /** Everything function_entry transmits. */
  function EntryOutput(fse: Frame, timestamp: real): seq<Json>
  {
    (if fse.includeFilename.Some? then [] else ArgWarnings(fse.vars)) + [CallEvent(fse, timestamp)]
  }

  /** Everything function_exit transmits. */
  function ExitOutput(fse: Frame, timestamp: real): seq<Json>
  {
    [ExitEvent(fse, timestamp)]
  }

  /** Everything function_return_value transmits. */
  function ReturnOutput(fse: Frame, returnValue: Value): seq<Json>
  {
    FieldWarnings(returnValue) + [ReturnEvent(fse, returnValue)]
  }

  /** The member names of equal length that share an event differ (a hint for the solver). */
  lemma MemberNamesDistinct()
    ensures "type" != "file" && "type" != "line" && "file" != "line"
    ensures "type" != "post" && "type" != "name"
    ensures "server" != "cookie" && "timestamp" != "arguments"
  {
  }

  // ---------------------------------------------------------------------
  // Layouts: adding the members one by one, in the order the hooks do,
  // gives the event shapes above.

  lemma WarningLayout(message: string)
    ensures Put(Put([], "type", JString("warning")), "message", JString(message)) == Warning(message).members
  {
  }

  lemma TypedLayout(value: Value)
    ensures Put(Put([], "value", ZvalToJson(value).json), "type", JString(value.synopsis)) == TypedMembers(value)
  {
  }

  /** An argument object: the optional `name`, then `value` and `type`. */
  lemma ArgumentLayout(arg: Arg)
    ensures Put(Put(NameMembers(arg.name), "value", ZvalToJson(arg.data).json), "type", JString(arg.data.synopsis))
      == ArgumentJson(arg).members
  {
    MemberNamesDistinct();
    var ns := NameMembers(arg.name);
    PutFresh(ns, "value", ZvalToJson(arg.data).json);
    PutFresh(ns + [("value", ZvalToJson(arg.data).json)], "type", JString(arg.data.synopsis));
  }

  lemma RequestLayout(req: Request)
    ensures
      Put(Put(Put(Put(Put(Put([],
        "type", JString("request")),
        "server", ZvalToJson(req.server).json),
        "get", ZvalToJson(req.get).json),
        "post", ZvalToJson(req.post).json),
        "cookie", ZvalToJson(req.cookie).json),
        "input", InputJson(req.input))
      == RequestEvent(req).members
  {
    MemberNamesDistinct();
    var ms := RequestEvent(req).members;
    RequestPrefixLayout(req);
    PutNext(ms, 3);
    var p := Put(ms[..3], "post", ZvalToJson(req.post).json);
    assert p == ms[..4];
    PutNext(ms, 4);
    p := Put(p, "cookie", ZvalToJson(req.cookie).json);
    assert p == ms[..5];
    PutNext(ms, 5);
    assert ms[..6] == ms;
  }

  /** The first three members of a request event, added in order. */
  lemma RequestPrefixLayout(req: Request)
    ensures
      Put(Put(Put([],
        "type", JString("request")),
        "server", ZvalToJson(req.server).json),
        "get", ZvalToJson(req.get).json)
      == RequestEvent(req).members[..3]
  {
    var ms := RequestEvent(req).members;
    PutNext(ms, 0); PutNext(ms, 1); PutNext(ms, 2);
  }

  /** The first four members of a call event, added in order. */
  lemma CallPrefixLayout(fse: Frame, timestamp: real)
    ensures
      Put(Put(Put(Put([],
        "type", JString("call")),
        "id", JInt(fse.functionNr)),
        "level", JInt(fse.level)),
        "timestamp", JDouble(timestamp))
      == CallEvent(fse, timestamp).members[..4]
  {
    var ms := CallEvent(fse, timestamp).members;
    PutNext(ms, 0); PutNext(ms, 1); PutNext(ms, 2); PutNext(ms, 3);
  }

  /** Adding the call event's first seven members, as function_entry does, lays them out in that order. */
  lemma CallHeadLayout(fse: Frame, timestamp: real)
    ensures
      Put(Put(Put(Put(Put(Put(Put([],
        "type", JString("call")),
        "id", JInt(fse.functionNr)),
        "level", JInt(fse.level)),
        "timestamp", JDouble(timestamp)),
        "function", JString(fse.functionName)),
        "file", JString(fse.filename)),
        "line", JInt(fse.lineno))
      == CallEvent(fse, timestamp).members[..7]
  {
    MemberNamesDistinct();
    var ms := CallEvent(fse, timestamp).members;
    CallPrefixLayout(fse, timestamp);
    PutNext(ms, 4);
    var p := Put(ms[..4], "function", JString(fse.functionName));
    assert p == ms[..5];
    PutNext(ms, 5);
    p := Put(p, "file", JString(fse.filename));
    assert p == ms[..6];
    PutNext(ms, 6);
  }

  /** Adding `arguments` last completes the call event. */
  lemma CallEventLayout(fse: Frame, timestamp: real)
    ensures Put(CallEvent(fse, timestamp).members[..7], "arguments", JArray(Arguments(fse))) == CallEvent(fse, timestamp).members
  {
    MemberNamesDistinct();
    var ms := CallEvent(fse, timestamp).members;
    PutNext(ms, 7);
    assert ms[..8] == ms;
  }

  lemma ExitLayout(fse: Frame, timestamp: real)
    ensures
      Put(Put(Put(Put([],
        "type", JString("exit")),
        "id", JInt(fse.functionNr)),
        "level", JInt(fse.level)),
        "timestamp", JDouble(timestamp))
      == ExitEvent(fse, timestamp).members
  {
    var ms := ExitEvent(fse, timestamp).members;
    PutNext(ms, 0); PutNext(ms, 1); PutNext(ms, 2); PutNext(ms, 3);
    assert ms[..4] == ms;
  }

  lemma ReturnLayout(fse: Frame, returnValue: Value)
    ensures
      Put(Put(Put(Put([],
        "type", JString("return")),
        "id", JInt(fse.functionNr)),
        "level", JInt(fse.level)),
        "return", JObject(TypedMembers(returnValue)))
      == ReturnEvent(fse, returnValue).members
  {
    var ms := ReturnEvent(fse, returnValue).members;
    PutNext(ms, 0); PutNext(ms, 1); PutNext(ms, 2); PutNext(ms, 3);
    assert ms[..4] == ms;
  }

  /** write_header's output after earlier output, regrouped in the order it is sent. */
  lemma HeaderOutputAfter(before: seq<Json>, req: Request)
    ensures before + HeaderOutput(req) ==
      before + FieldWarnings(req.server) + FieldWarnings(req.get) + FieldWarnings(req.post) + FieldWarnings(req.cookie)
      + [RequestEvent(req)]
  {
  }

  /** Adding member k of `ms` after the ones before it, when its key is new. */
  lemma PutNext(ms: seq<Member>, k: nat)
    requires k < |ms|
    requires forall j :: 0 <= j < k ==> ms[j].0 != ms[k].0
    ensures Put(ms[..k], ms[k].0, ms[k].1) == ms[..k + 1]
  {
    PutFresh(ms[..k], ms[k].0, ms[k].1);
    assert ms[..k] + [ms[k]] == ms[..k + 1];
  }

  /** Every element of `docs` is a warning event. */
  predicate AllWarnings(docs: seq<Json>)
  {
    forall i :: 0 <= i < |docs| ==> KindOf(docs[i]) == "warning"
  }

  // ---------------------------------------------------------------------
  // Properties of the serializer

  /**
    Exactly one of two outcomes per value: no warning and the converted
    value, or one warning naming the value's preview and a null in its place.
   */
  lemma ConversionOutcome(value: Value)
    ensures FieldWarnings(value) == [] <==> !value.encoding.Opaque?
    ensures FieldWarnings(value) == [] ==>
      ZvalToJson(value).json == (if value.encoding.Representable? then value.encoding.json else JNull)
    ensures FieldWarnings(value) != [] ==>
      && FieldWarnings(value) == [Warning(InvalidConversion + value.preview)]
      && ZvalToJson(value).json == JNull
  {
  }

  /** A warning event is a `warning` with the conversion message. */
  lemma WarningShape(value: Value)
    requires value.encoding.Opaque?
    ensures |FieldWarnings(value)| == 1
    ensures KindOf(FieldWarnings(value)[0]) == "warning"
    ensures Keys(FieldWarnings(value)[0].members) == ["type", "message"]
    ensures Lookup(FieldWarnings(value)[0].members, "message") == Some(JString(InvalidConversion + value.preview))
  {
  }

  /**
    A typed field always carries both `value` and `type`; `type` is the
    synopsis of the original value even when `value` fell back to null.
   */
  lemma TypedFieldAlwaysTyped(value: Value)
    ensures Keys(TypedMembers(value)) == ["value", "type"]
    ensures Lookup(TypedMembers(value), "type") == Some(JString(value.synopsis))
    ensures Lookup(TypedMembers(value), "value") == Some(ZvalToJson(value).json)
    ensures value.encoding.Opaque? ==> Lookup(TypedMembers(value), "value") == Some(JNull)
  {
  }

  lemma FieldWarningsAreWarnings(value: Value)
    ensures AllWarnings(FieldWarnings(value))
  {
  }

  lemma AllWarningsAppend(a: seq<Json>, b: seq<Json>)
    requires AllWarnings(a) && AllWarnings(b)
    ensures AllWarnings(a + b)
  {
  }

  // ---------------------------------------------------------------------
  // Properties of the argument loop

  /** The argument warnings of a concatenation are those of each part, in order. */
  lemma {:induction false} ArgWarningsAppend(a: seq<Arg>, b: seq<Arg>)
    ensures ArgWarnings(a + b) == ArgWarnings(a) + ArgWarnings(b)
  {
    if b == [] {
      assert a + b == a;
    } else {
      var c := a + b;
      assert c[..|c| - 1] == a + b[..|b| - 1];
      assert c[|c| - 1] == b[|b| - 1];
      ArgWarningsAppend(a, b[..|b| - 1]);
    }
  }

  /** Argument i contributes exactly its own conversion's warnings. */
  lemma ArgWarningsSingle(arg: Arg)
    ensures ArgWarnings([arg]) == FieldWarnings(arg.data)
  {
  }

  /** One warning per argument whose value cannot be encoded, and only those. */
  lemma {:induction false} ArgWarningsCount(vars: seq<Arg>)
    ensures |ArgWarnings(vars)| == |set i | 0 <= i < |vars| && vars[i].data.encoding.Opaque?|
    ensures AllWarnings(ArgWarnings(vars))
  {
    if vars != [] {
      var n := |vars| - 1;
      var init := vars[..n];
      ArgWarningsCount(init);
      FieldWarningsAreWarnings(vars[n].data);
      AllWarningsAppend(ArgWarnings(init), FieldWarnings(vars[n].data));
      var before := set i | 0 <= i < n && init[i].data.encoding.Opaque?;
      var after := set i | 0 <= i < |vars| && vars[i].data.encoding.Opaque?;
      if vars[n].data.encoding.Opaque? {
        assert after == before + {n};
      } else {
        assert after == before;
      }
    }
  }

  // ---------------------------------------------------------------------
  // Properties of the event shapes

  /**
    The call event: its members in insertion order, one argument per `var`
    entry in index order with `name` exactly when the entry is named, and for
    include/require a single `{value: path}` element with no `type`.
   */
  lemma CallEventShape(fse: Frame, timestamp: real)
    ensures Keys(CallEvent(fse, timestamp).members) ==
      ["type", "id", "level", "timestamp", "function", "file", "line", "arguments"]
    ensures KindOf(CallEvent(fse, timestamp)) == "call"
    ensures Lookup(CallEvent(fse, timestamp).members, "arguments") == Some(JArray(Arguments(fse)))
    ensures fse.includeFilename.Some? ==>
      Arguments(fse) == [JObject([("value", JString(fse.includeFilename.value))])]
    ensures fse.includeFilename.None? ==>
      && |Arguments(fse)| == |fse.vars|
      && forall i :: 0 <= i < |fse.vars| ==>
        && Arguments(fse)[i].JObject?
        && (HasKey(Arguments(fse)[i].members, "name") <==> fse.vars[i].name.Some?)
        && Lookup(Arguments(fse)[i].members, "value") == Some(ZvalToJson(fse.vars[i].data).json)
        && Lookup(Arguments(fse)[i].members, "type") == Some(JString(fse.vars[i].data.synopsis))
  {
    var ms := CallEvent(fse, timestamp).members;
    assert Keys(ms) == ["type", "id", "level", "timestamp", "function", "file", "line", "arguments"];
    MemberNamesDistinct();
    LookupAt(ms, 7);
    if fse.includeFilename.None? {
      forall i | 0 <= i < |fse.vars|
        ensures (HasKey(Arguments(fse)[i].members, "name") <==> fse.vars[i].name.Some?)
        ensures Lookup(Arguments(fse)[i].members, "value") == Some(ZvalToJson(fse.vars[i].data).json)
        ensures Lookup(Arguments(fse)[i].members, "type") == Some(JString(fse.vars[i].data.synopsis))
      {
        ArgumentShape(fse.vars[i]);
      }
    }
  }

  lemma ArgumentShape(arg: Arg)
    ensures HasKey(ArgumentJson(arg).members, "name") <==> arg.name.Some?
    ensures Lookup(ArgumentJson(arg).members, "value") == Some(ZvalToJson(arg.data).json)
    ensures Lookup(ArgumentJson(arg).members, "type") == Some(JString(arg.data.synopsis))
  {
    var ms := ArgumentJson(arg).members;
    var n := |NameMembers(arg.name)|;
    MemberNamesDistinct();
    if arg.name.None? {
      NotHasKey(ms, "name");
    }
    LookupAt(ms, n);
    LookupAt(ms, n + 1);
  }

  /** function_entry: the argument warnings, in order, then exactly one call event. */
  lemma EntryOutputOrder(fse: Frame, timestamp: real)
    ensures |EntryOutput(fse, timestamp)| >= 1
    ensures EntryOutput(fse, timestamp)[|EntryOutput(fse, timestamp)| - 1] == CallEvent(fse, timestamp)
    ensures AllWarnings(EntryOutput(fse, timestamp)[..|EntryOutput(fse, timestamp)| - 1])
    ensures fse.includeFilename.Some? ==> EntryOutput(fse, timestamp) == [CallEvent(fse, timestamp)]
  {
    var out := EntryOutput(fse, timestamp);
    ArgWarningsCount(fse.vars);
    assert out[..|out| - 1] == if fse.includeFilename.Some? then [] else ArgWarnings(fse.vars);
  }

  /** The exit event carries the frame's id and level, never a warning. */
  lemma ExitMatchesCall(fse: Frame, entered: real, exited: real)
    ensures ExitOutput(fse, exited) == [ExitEvent(fse, exited)]
    ensures Keys(ExitEvent(fse, exited).members) == ["type", "id", "level", "timestamp"]
    ensures KindOf(ExitEvent(fse, exited)) == "exit"
    ensures Lookup(ExitEvent(fse, exited).members, "id") == Lookup(CallEvent(fse, entered).members, "id") == Some(JInt(fse.functionNr))
    ensures Lookup(ExitEvent(fse, exited).members, "level") == Lookup(CallEvent(fse, entered).members, "level") == Some(JInt(fse.level))
  {
    var ms := ExitEvent(fse, exited).members;
    assert Keys(ms) == ["type", "id", "level", "timestamp"];
    var cs := CallEvent(fse, entered).members;
    assert Lookup(ms, "id") == Lookup(ms[1..], "id");
    assert Lookup(cs, "id") == Lookup(cs[1..], "id");
    assert Lookup(ms, "level") == Lookup(ms[1..][1..], "level");
    assert Lookup(cs, "level") == Lookup(cs[1..][1..], "level");
  }

  /** The return event: at most one warning, then the event with a typed `return`. */
  lemma ReturnEventShape(fse: Frame, returnValue: Value)
    ensures Keys(ReturnEvent(fse, returnValue).members) == ["type", "id", "level", "return"]
    ensures KindOf(ReturnEvent(fse, returnValue)) == "return"
    ensures ReturnOutput(fse, returnValue) == FieldWarnings(returnValue) + [ReturnEvent(fse, returnValue)]
    ensures AllWarnings(FieldWarnings(returnValue))
    ensures Lookup(ReturnEvent(fse, returnValue).members, "return") == Some(JObject(TypedMembers(returnValue)))
  {
    var ms := ReturnEvent(fse, returnValue).members;
    assert Keys(ms) == ["type", "id", "level", "return"];
    LookupAt(ms, 3);
    FieldWarningsAreWarnings(returnValue);
  }

  /**
    write_header: warnings for server, get, post and cookie in that order,
    then exactly one request event whose `input` is null when no body was read.
   */
  lemma HeaderOutputOrder(req: Request)
    ensures HeaderOutput(req) ==
      FieldWarnings(req.server) + FieldWarnings(req.get) + FieldWarnings(req.post) + FieldWarnings(req.cookie)
      + [RequestEvent(req)]
    ensures AllWarnings(HeaderOutput(req)[..|HeaderOutput(req)| - 1])
    ensures Keys(RequestEvent(req).members) == ["type", "server", "get", "post", "cookie", "input"]
    ensures KindOf(RequestEvent(req)) == "request"
    ensures Lookup(RequestEvent(req).members, "input") == Some(if req.input.None? then JNull else JString(req.input.value))
  {
    var ms := RequestEvent(req).members;
    assert Keys(ms) == ["type", "server", "get", "post", "cookie", "input"];
    LookupAt(ms, 5);
    var w1, w2, w3, w4 := FieldWarnings(req.server), FieldWarnings(req.get), FieldWarnings(req.post), FieldWarnings(req.cookie);
    FieldWarningsAreWarnings(req.server);
    FieldWarningsAreWarnings(req.get);
    FieldWarningsAreWarnings(req.post);
    FieldWarningsAreWarnings(req.cookie);
    AllWarningsAppend(w1, w2);
    AllWarningsAppend(w1 + w2, w3);
    AllWarningsAppend(w1 + w2 + w3, w4);
    assert HeaderOutput(req)[..|HeaderOutput(req)| - 1] == w1 + w2 + w3 + w4;
  }

  // ---------------------------------------------------------------------
  // Worked examples

  /** A request whose server map is {"HTTP_HOST":"x"} and whose body is "abc". */
  lemma RequestExample()
    ensures
      var empty := Value(Representable(JArray([])), "[]", "array(0)");
      var server := Value(Representable(JObject([("HTTP_HOST", JString("x"))])), "['HTTP_HOST' => 'x']", "array(1)");
      var out := HeaderOutput(Request(server, empty, empty, empty, Some("abc")));
      && |out| == 1
      && Lookup(out[0].members, "input") == Some(JString("abc"))
      && Lookup(out[0].members, "server") == Some(JObject([("HTTP_HOST", JString("x"))]))
  {
  }

  /** A call f(x: 42) at a.php:10 reports one named, typed argument. */
  lemma CallExample(timestamp: real)
    ensures
      var fse := Frame(1, 0, "f", "a.php", 10, None, [Arg(Some("x"), Value(Representable(JInt(42)), "42", "int"))]);
      && EntryOutput(fse, timestamp) == [CallEvent(fse, timestamp)]
      && Arguments(fse) == [JObject([("name", JString("x")), ("value", JInt(42)), ("type", JString("int"))])]
  {
    var fse := Frame(1, 0, "f", "a.php", 10, None, [Arg(Some("x"), Value(Representable(JInt(42)), "42", "int"))]);
    var a := fse.vars[0];
    assert fse.vars[..0] == [];
    assert NameMembers(a.name) == [("name", JString("x"))];
    assert TypedMembers(a.data) == [("value", JInt(42)), ("type", JString("int"))];
    assert ArgumentJson(a) == JObject([("name", JString("x")), ("value", JInt(42)), ("type", JString("int"))]);
    assert Arguments(fse) == [ArgumentJson(a)];
  }

  /** A resource handle as an argument: a warning first, then a null value that keeps its type. */
  lemma OpaqueArgumentExample(timestamp: real, preview: string, synopsis: string)
    ensures
      var fse := Frame(2, 1, "g", "b.php", 3, None, [Arg(None, Value(Opaque, preview, synopsis))]);
      && EntryOutput(fse, timestamp) == [Warning(InvalidConversion + preview), CallEvent(fse, timestamp)]
      && Arguments(fse) == [JObject([("value", JNull), ("type", JString(synopsis))])]
  {
    var fse := Frame(2, 1, "g", "b.php", 3, None, [Arg(None, Value(Opaque, preview, synopsis))]);
    var a := fse.vars[0];
    assert fse.vars[..0] == [];
    assert ArgWarnings(fse.vars) == [Warning(InvalidConversion + preview)];
    assert TypedMembers(a.data) == [("value", JNull), ("type", JString(synopsis))];
    assert ArgumentJson(a) == JObject([("value", JNull), ("type", JString(synopsis))]);
    assert Arguments(fse) == [ArgumentJson(a)];
  }
}
