/**
  The hook surface of the Fracker trace backend: a session object that owns
  the collector socket, and one method per hook. Each hook builds its event
  by successive in-place additions to a JSON object and sends it with
  WriteJsonObject; a value that cannot be converted makes AddJsonZval send a
  warning first.
 */
module Emitter {
  import opened Wrappers
  import opened Json
  import opened Connection
  import opened Events
  import opened Stream

  /** A json-c object under construction. */
  class JsonObject {
    var members: seq<Member>

    constructor ()
      ensures members == []
    {
      members := [];
    }

    /** json_object_object_add */
    method Add(key: string, value: Json)
      modifies this
      ensures members == Put(old(members), key, value)
    {
      members := Put(members, key, value);
    }
  }

  /**
    The trace context: the connected socket and the documents written on it,
    in transmission order. The bytes on the wire are Framing.Wire(sent, r) for
    the JSON library's printer r.
   */
  class Session {
    const socketFd: nat
    var sent: seq<Json>
    /** False once Deinit has closed the socket */
    var open: bool
    /** The hooks called so far, in order */
    ghost var hooks: seq<Hook>

    /** What has been sent is what the hooks called so far send. */
    ghost predicate Valid()
      reads this
    {
      sent == Output(hooks)
    }

    constructor (fd: nat)
      ensures Valid() && open && socketFd == fd && sent == [] && hooks == []
    {
      socketFd := fd;
      sent := [];
      open := true;
      hooks := [];
    }

    /** write_json_object: one document, followed by "\n" in the same writev. */
    method WriteJsonObject(doc: Json)
      requires open
      modifies this`sent
      ensures sent == old(sent) + [doc]
    {
      sent := sent + [doc];
    }

    /** add_json_zval: on a failed conversion, a warning goes out before `key` is set to null. */
    method AddJsonZval(parent: JsonObject, key: string, value: Value)
      requires open
      modifies this`sent, parent
      ensures sent == old(sent) + FieldWarnings(value)
      ensures parent.members == Put(old(parent.members), key, ZvalToJson(value).json)
    {
      var conversion := ZvalToJson(value);
      if !conversion.ok {
        var message := InvalidConversion + value.preview;
        var info := new JsonObject();
        info.Add("type", JString("warning"));
        info.Add("message", JString(message));
        WarningLayout(message);
        WriteJsonObject(JObject(info.members));
      }
      parent.Add(key, conversion.json);
    }

    /** add_json_typed_zval: `value` as add_json_zval sets it, then `type` from the synopsis. */
    method AddJsonTypedZval(parent: JsonObject, value: Value)
      requires open
      modifies this`sent, parent
      ensures sent == old(sent) + FieldWarnings(value)
      ensures parent.members ==
        Put(Put(old(parent.members), "value", ZvalToJson(value).json), "type", JString(value.synopsis))
    {
      AddJsonZval(parent, "value", value);
      parent.Add("type", JString(value.synopsis));
    }

    /** write_header: the request event, after the warnings of its four maps. */
    method WriteHeader(request: Request)
      requires open && Valid()
      modifies this`sent, this`hooks
      ensures Valid() && hooks == old(hooks) + [Header(request)]
      ensures sent == old(sent) + HeaderOutput(request)
    {
      OutputSnoc(hooks, Header(request));
      hooks := hooks + [Header(request)];
      HeaderOutputAfter(sent, request);
      var info := new JsonObject();
      info.Add("type", JString("request"));
      AddJsonZval(info, "server", request.server);
      AddJsonZval(info, "get", request.get);
      AddJsonZval(info, "post", request.post);
      AddJsonZval(info, "cookie", request.cookie);
      info.Add("input", InputJson(request.input));
      RequestLayout(request);
      WriteJsonObject(JObject(info.members));
    }

    /** write_footer sends nothing. */
    method WriteFooter()
      requires open && Valid()
      modifies this`hooks
      ensures Valid() && hooks == old(hooks) + [Footer]
      ensures sent == old(sent)
    {
      OutputSnoc(hooks, Footer);
      hooks := hooks + [Footer];
    }

    /** get_filename: the fixed label that stands for the socket. */
    function GetFilename(): (name: string)
      ensures name == "{TCP}"
    {
      "{TCP}"
    }

    /** function_entry, first part: the call info object with its seven leading members. */
    method CallInfo(fse: Frame, timestamp: real) returns (info: JsonObject)
      ensures fresh(info)
      ensures info.members == CallEvent(fse, timestamp).members[..7]
    {
      info := new JsonObject();
      info.Add("type", JString("call"));
      info.Add("id", JInt(fse.functionNr));
      info.Add("level", JInt(fse.level));
      info.Add("timestamp", JDouble(timestamp));
      info.Add("function", JString(fse.functionName));
      info.Add("file", JString(fse.filename));
      info.Add("line", JInt(fse.lineno));
      CallHeadLayout(fse, timestamp);
    }

    /** One iteration of function_entry's argument loop: the optional `name`, then the typed value. */
    method ArgumentInfo(arg: Arg) returns (argument: JsonObject)
      requires open
      modifies this`sent
      ensures fresh(argument)
      ensures sent == old(sent) + FieldWarnings(arg.data)
      ensures argument.members == ArgumentJson(arg).members
    {
      argument := new JsonObject();
      if arg.name.Some? {
        argument.Add("name", JString(arg.name.value));
      }
      assert argument.members == NameMembers(arg.name);
      AddJsonTypedZval(argument, arg.data);
      ArgumentLayout(arg);
    }

    /**
      function_entry, second part: the `arguments` array, sending the
      warnings of the argument values in argument order.
     */
    method ArgumentList(fse: Frame) returns (arguments: seq<Json>)
      requires open
      modifies this`sent
      ensures sent == old(sent) + (if fse.includeFilename.Some? then [] else ArgWarnings(fse.vars))
      ensures arguments == Arguments(fse)
    {
      arguments := [];
      if fse.includeFilename.Some? {
        var argument := new JsonObject();
        argument.Add("value", JString(fse.includeFilename.value));
        arguments := arguments + [JObject(argument.members)];
      } else {
        var i := 0;
        while i < |fse.vars|
          invariant 0 <= i <= |fse.vars|
          invariant sent == old(sent) + ArgWarnings(fse.vars[..i])
          invariant |arguments| == i
          invariant forall k :: 0 <= k < i ==> arguments[k] == ArgumentJson(fse.vars[k])
        {
          var argument := ArgumentInfo(fse.vars[i]);
          arguments := arguments + [JObject(argument.members)];
          assert fse.vars[..i + 1][..i] == fse.vars[..i];
          i := i + 1;
        }
        assert fse.vars[..i] == fse.vars;
      }
    }

    /** function_entry: one call event, after the warnings of its arguments in argument order. */
    method FunctionEntry(fse: Frame, timestamp: real)
      requires open && Valid()
      modifies this`sent, this`hooks
      ensures Valid() && hooks == old(hooks) + [Entry(fse, timestamp)]
      ensures sent == old(sent) + EntryOutput(fse, timestamp)
    {
      OutputSnoc(hooks, Entry(fse, timestamp));
      hooks := hooks + [Entry(fse, timestamp)];
      var info := CallInfo(fse, timestamp);
      var arguments := ArgumentList(fse);
      info.Add("arguments", JArray(arguments));
      CallEventLayout(fse, timestamp);
      WriteJsonObject(JObject(info.members));
    }

    /** function_exit: one exit event with the frame's id and level, never a warning. */
    method FunctionExit(fse: Frame, timestamp: real)
      requires open && Valid()
      modifies this`sent, this`hooks
      ensures Valid() && hooks == old(hooks) + [Exit(fse, timestamp)]
      ensures sent == old(sent) + ExitOutput(fse, timestamp)
    {
      OutputSnoc(hooks, Exit(fse, timestamp));
      hooks := hooks + [Exit(fse, timestamp)];
      var info := new JsonObject();
      info.Add("type", JString("exit"));
      info.Add("id", JInt(fse.functionNr));
      info.Add("level", JInt(fse.level));
      info.Add("timestamp", JDouble(timestamp));
      ExitLayout(fse, timestamp);
      WriteJsonObject(JObject(info.members));
    }

    /** function_return_value: one return event holding a typed `return` object. */
    method FunctionReturnValue(fse: Frame, returnValue: Value)
      requires open && Valid()
      modifies this`sent, this`hooks
      ensures Valid() && hooks == old(hooks) + [ReturnValue(fse, returnValue)]
      ensures sent == old(sent) + ReturnOutput(fse, returnValue)
    {
      OutputSnoc(hooks, ReturnValue(fse, returnValue));
      hooks := hooks + [ReturnValue(fse, returnValue)];
      var info := new JsonObject();
      info.Add("type", JString("return"));
      info.Add("id", JInt(fse.functionNr));
      info.Add("level", JInt(fse.level));
      var ret := new JsonObject();
      AddJsonTypedZval(ret, returnValue);
      TypedLayout(returnValue);
      info.Add("return", JObject(ret.members));
      ReturnLayout(fse, returnValue);
      WriteJsonObject(JObject(info.members));
    }

    /** generator_return_value sends nothing. */
    method GeneratorReturnValue(fse: Frame)
      requires open && Valid()
      modifies this`hooks
      ensures Valid() && hooks == old(hooks) + [GeneratorReturn(fse)]
      ensures sent == old(sent)
    {
      OutputSnoc(hooks, GeneratorReturn(fse));
      hooks := hooks + [GeneratorReturn(fse)];
    }

    /** assignment sends nothing. */
    method Assignment(fse: Frame, fullVarname: string, value: Value, rightFullVarname: string, op: string, file: string, lineno: int)
      requires open && Valid()
      modifies this`hooks
      ensures Valid() && hooks == old(hooks) + [Assign(fse)]
      ensures sent == old(sent)
    {
      OutputSnoc(hooks, Assign(fse));
      hooks := hooks + [Assign(fse)];
    }

    /** deinit: close the socket; nothing more is written. */
    method Deinit()
      requires open
      modifies this`open
      ensures !open && sent == old(sent) && hooks == old(hooks)
    {
      open := false;
    }
  }

  /**
    init: connect, and on failure return no context; on success a fresh
    session on the connected socket that has sent nothing yet.
   */
  method Init(resolved: Option<seq<Candidate>>) returns (ctxt: Session?)
    ensures ctxt == null <==> Outcome(resolved).None?
    ensures ctxt != null ==>
      && fresh(ctxt) && ctxt.open
      && Outcome(resolved) == Some(ctxt.socketFd)
      && ctxt.Valid() && ctxt.sent == [] && ctxt.hooks == []
  {
    var fd, _ := ConnectToServer(resolved);
    if fd == -1 {
      return null;
    }
    ctxt := new Session(fd);
  }

  /** Of everything a valid session has sent, the events alone follow the hooks one to one, in call order. */
  lemma SentEventsInHookOrder(session: Session)
    requires session.Valid()
    ensures NonWarnings(session.sent) == Reported(session.hooks)
    ensures Kinds(NonWarnings(session.sent)) == ReportedKinds(session.hooks)
  {
    EventsInHookOrder(session.hooks);
    KindsInHookOrder(session.hooks);
  }
}
