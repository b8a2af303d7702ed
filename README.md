# Fracker trace backend: event-stream protocol

This project models the Fracker trace backend of the xdebug extension, `ext/src/tracing/trace_fracker.c`.
When tracing is on, the backend resolves the configured collector address and walks the resolved addresses in order.
It opens a TCP connection to the first address that accepts, unless `socket()` fails on an earlier address, in which case it gives up at once.
Four of its hooks report: write_header, function_entry, function_exit and function_return_value.
Each builds one JSON object and writes it on the socket as one line that ends in `"\n"`.
write_footer, generator_return_value and assignment send nothing, and get_filename only returns the fixed label `{TCP}`.
init and deinit open and close the session.
If a runtime value cannot be converted to JSON, the field becomes `null` and a `warning` event is sent first.

Modules:

- `Wrappers`: the `Option` type.
- `Json`: json-c values.
  - Objects are ordered member lists.
  - `Put` is `json_object_object_add`: an existing key keeps its place and takes the new value; a new key is appended.
- `Framing`: the bytes `write_json_object` puts on the socket.
  - One two-part `writev` per document.
  - Splitting the stream at newlines gives the documents back.
- `Connection`: `connect_to_server` as a loop over the resolver's candidate list.
  - Each candidate carries the outcome of its `socket()` and `connect()` calls.
  - The method is specified by the functions `Stop` and `Outcome`.
- `Events`: the conversion outcome and what each hook sends, as functions of the hook's inputs.
  - Covers the conversion outcome (`ZvalToJson`) and the warning, request, call, exit and return events.
  - Also covers the full output of each hook: its warnings, then its event.
- `Emitter`: the imperative hook surface.
  - `JsonObject` is a json-c object that the hooks fill in place.
  - `Session` is the trace context. It holds the documents sent on its socket and a ghost history of the hooks called.
  - Its invariant `Valid()` says that what was sent is what that history sends.
  - Each hook method adds members one at a time, in the order the C code does.
  - `Init` connects and returns `null` on failure.
- `Stream`: whole traces as sequences of hook calls.
  - Removing the warnings leaves exactly one event per reporting hook, in call order.
  - The event kinds name those hooks.

The code's connection rule is stricter than "connect exactly when some address accepts". A `socket()` failure on any candidate makes `connect_to_server` return -1 at once, even when a later candidate would accept. The model follows the code. `Connection.ConnectedIffReachable` states the exact condition.

## Model

| member | source | states |
|---|---|---|
| Json.PutFresh | ext/src/tracing/trace_fracker.c:226-234 | adding a key no member carries appends it at the end, so successive adds of distinct keys keep insertion order |
| Json.PutExisting | ext/src/tracing/trace_fracker.c:138 | adding a key already present changes no key and no position |
| Json.PutLookup | ext/src/tracing/trace_fracker.c:138 | after an add the key maps to the new value and every other key keeps its value |
| Framing.IoVec | ext/src/tracing/trace_fracker.c:80-85 | one writev has exactly two buffers: the printed document, then "\n" |
| Framing.WireAppend | ext/src/tracing/trace_fracker.c:74-87 | the bytes of successive writes are the concatenation of each write's bytes |
| Framing.LinesOfWire | ext/src/tracing/trace_fracker.c:80-85 | if the printer never emits a newline, splitting the stream at newlines gives back one line per document, in transmission order |
| Connection.Stop | ext/src/tracing/trace_fracker.c:45-60 | the loop stops at the first candidate that is not "socket made, connect failed"; every candidate before it is such a candidate |
| Connection.ConnectToServer | ext/src/tracing/trace_fracker.c:31-72 | -1 when resolution fails; otherwise returns the socket of the stopping candidate if it has one and connected, else -1; also every socket() and close() call it makes, in call order, equal to WalkCalls, including the final close at line 67 |
| Connection.CloseBeforeNextSocket | ext/src/tracing/trace_fracker.c:45-56 | for every passed-over candidate j, the calls are socket() on j then close() of its descriptor, so each failed socket is closed before the next candidate's socket() |
| Connection.WalkOrder | ext/src/tracing/trace_fracker.c:45-68 | the walk makes 2k+1 calls for stop index k: the socket()/close() pairs of the passed-over candidates, then socket() on the stopping candidate, or the close() of line 67 when the list is exhausted |
| Connection.ConnectedIffReachable | ext/src/tracing/trace_fracker.c:45-71 | a connection is made iff some candidate gets a socket and connects while every earlier candidate got a socket |
| Connection.FirstSuccessWins | ext/src/tracing/trace_fracker.c:45-71 | the returned socket belongs to a candidate that connected, and every earlier candidate got a socket and failed to connect |
| Connection.SocketFailureIsFatal | ext/src/tracing/trace_fracker.c:47-50 | a socket() failure reached by the walk means no connection, whatever comes later |
| Connection.LaterCandidatesIrrelevant | ext/src/tracing/trace_fracker.c:45-60 | candidates after the stopping point change neither where the walk stops nor its result |
| Connection.NoneConnects | ext/src/tracing/trace_fracker.c:53-69 | if no candidate connects, the result is -1 |
| Events.ZvalToJson | ext/src/tracing/trace_fracker.c:89-109 | conversion fails exactly when the encoder produced no text, and then the field is null; a parsed text gives its value; an unparsable text succeeds with null |
| Events.ConversionOutcome | ext/src/tracing/trace_fracker.c:111-139 | either no warning and the converted value, or exactly one warning "Invalid JSON conversion for " + preview and null |
| Events.WarningShape | ext/src/tracing/trace_fracker.c:116-129 | a warning is an object with keys type, message in that order, of type "warning", whose message starts with the fixed prefix and ends with the value's preview |
| Events.FieldWarningsAreWarnings | ext/src/tracing/trace_fracker.c:116-135 | everything add_json_zval sends before setting its key is a warning event |
| Events.TypedFieldAlwaysTyped | ext/src/tracing/trace_fracker.c:141-152 | a typed field has keys value, type in that order; type is the synopsis of the original value, even when value fell back to null |
| Events.ArgWarningsSingle | ext/src/tracing/trace_fracker.c:259 | one argument contributes exactly the warnings of its own conversion |
| Events.ArgWarningsAppend | ext/src/tracing/trace_fracker.c:250-261 | the argument loop's warnings for a concatenation are those of each part, in order |
| Events.ArgWarningsCount | ext/src/tracing/trace_fracker.c:250-261 | exactly one warning per argument whose value cannot be encoded, and all of them are warning events |
| Events.CallEventShape | ext/src/tracing/trace_fracker.c:227-263 | call event keys are type, id, level, timestamp, function, file, line, arguments, and its arguments member is the arguments array; include/require gives one {value: path}; otherwise one argument per var, in order, holding name iff the var is named, plus value and type |
| Events.ArgumentShape | ext/src/tracing/trace_fracker.c:253-259 | an argument object has name iff the var is named, value the converted data, type its synopsis |
| Events.EntryOutputOrder | ext/src/tracing/trace_fracker.c:220-267 | function_entry sends only warnings, then exactly one call event last; for include/require only the call event |
| Events.ExitMatchesCall | ext/src/tracing/trace_fracker.c:269-282 | function_exit sends exactly one exit event with keys type, id, level, timestamp; its id and level equal those of the frame's call event |
| Events.ReturnEventShape | ext/src/tracing/trace_fracker.c:284-301 | function_return_value sends the value's warnings, then one return event with keys type, id, level, return, whose return is the {value, type} object |
| Events.HeaderOutputOrder | ext/src/tracing/trace_fracker.c:198-211 | write_header sends warnings for server, get, post and cookie in that order, then one request event with keys type, server, get, post, cookie, input; input is null when no body was read |
| Events.RequestExample | ext/src/tracing/trace_fracker.c:198-211 | a request with representable maps and body "abc" sends one event holding the server map and the body |
| Events.CallExample | ext/src/tracing/trace_fracker.c:220-267 | f(x: 42) sends one call event whose arguments are [{name: "x", value: 42, type: "int"}] |
| Events.OpaqueArgumentExample | ext/src/tracing/trace_fracker.c:116-138 | an unencodable unnamed argument sends its warning first, and the call event's argument is {value: null, type: synopsis} |
| Events.WarningLayout | ext/src/tracing/trace_fracker.c:126-128 | adding type, then message, gives the warning event |
| Events.TypedLayout | ext/src/tracing/trace_fracker.c:146-150 | adding value, then type, to an empty object gives the typed members |
| Events.ArgumentLayout | ext/src/tracing/trace_fracker.c:253-259 | the optional name, then value and type, give the argument object |
| Events.RequestLayout | ext/src/tracing/trace_fracker.c:201-209 | the six adds of write_header give the request event's members in that order |
| Events.RequestPrefixLayout | ext/src/tracing/trace_fracker.c:203-206 | the first three adds of write_header give the request event's first three members |
| Events.CallPrefixLayout | ext/src/tracing/trace_fracker.c:227-231 | the first four adds of function_entry give the call event's first four members |
| Events.CallHeadLayout | ext/src/tracing/trace_fracker.c:227-234 | the seven leading adds of function_entry give the call event's first seven members |
| Events.CallEventLayout | ext/src/tracing/trace_fracker.c:263 | adding arguments last completes the call event |
| Events.ExitLayout | ext/src/tracing/trace_fracker.c:274-278 | the four adds of function_exit give the exit event |
| Events.ReturnLayout | ext/src/tracing/trace_fracker.c:289-297 | the adds of function_return_value give the return event |
| Emitter.JsonObject.constructor | ext/src/tracing/trace_fracker.c:227 | a new object has no members |
| Emitter.JsonObject.Add | ext/src/tracing/trace_fracker.c:138 | the members become Put of the old members |
| Emitter.Session.constructor | ext/src/tracing/trace_fracker.c:185-188 | a new context is open on its socket, has sent nothing, and satisfies Valid |
| Emitter.Session.WriteJsonObject | ext/src/tracing/trace_fracker.c:74-87 | exactly the one document is appended to what was sent |
| Emitter.Session.AddJsonZval | ext/src/tracing/trace_fracker.c:111-139 | sends the value's warnings, if any, then sets the key to the converted value or null |
| Emitter.Session.AddJsonTypedZval | ext/src/tracing/trace_fracker.c:141-152 | sends the value's warnings, then the parent gains value and type, in that order |
| Emitter.Session.WriteHeader | ext/src/tracing/trace_fracker.c:198-211 | appends exactly HeaderOutput and records the hook, keeping Valid |
| Emitter.Session.WriteFooter | ext/src/tracing/trace_fracker.c:213 | sends nothing and records the hook, keeping Valid |
| Emitter.Session.GetFilename | ext/src/tracing/trace_fracker.c:215-218 | always "{TCP}" |
| Emitter.Session.CallInfo | ext/src/tracing/trace_fracker.c:227-234 | a fresh object holding the call event's first seven members |
| Emitter.Session.ArgumentInfo | ext/src/tracing/trace_fracker.c:253-259 | sends the argument's warnings, then returns a fresh object equal to the argument's JSON |
| Emitter.Session.ArgumentList | ext/src/tracing/trace_fracker.c:237-261 | the arguments array is Arguments(fse), and the argument warnings are sent in argument order (none for include/require) |
| Emitter.Session.FunctionEntry | ext/src/tracing/trace_fracker.c:220-267 | appends exactly EntryOutput and records the hook, keeping Valid |
| Emitter.Session.FunctionExit | ext/src/tracing/trace_fracker.c:269-282 | appends exactly ExitOutput and records the hook, keeping Valid |
| Emitter.Session.FunctionReturnValue | ext/src/tracing/trace_fracker.c:284-301 | appends exactly ReturnOutput and records the hook, keeping Valid |
| Emitter.Session.GeneratorReturnValue | ext/src/tracing/trace_fracker.c:303 | sends nothing and records the hook, keeping Valid |
| Emitter.Session.Assignment | ext/src/tracing/trace_fracker.c:305 | sends nothing and records the hook, keeping Valid |
| Emitter.Session.Deinit | ext/src/tracing/trace_fracker.c:191-196 | closes the context and sends nothing further |
| Emitter.Init | ext/src/tracing/trace_fracker.c:172-189 | no context exactly when the connection fails; otherwise a fresh, open, valid context on the connected socket that has sent nothing |
| Emitter.SentEventsInHookOrder | ext/src/tracing/trace_fracker.c:198-305 | in a valid session the non-warning documents sent are exactly the hooks' events, in call order, and their kinds name those hooks |
| Stream.HookOutputSplit | ext/src/tracing/trace_fracker.c:198-305 | without its warnings, a hook's output is its single event, or nothing for the no-op hooks |
| Stream.HeaderSplit | ext/src/tracing/trace_fracker.c:198-211 | without warnings, write_header's output is the request event, of kind "request" |
| Stream.EntrySplit | ext/src/tracing/trace_fracker.c:220-267 | without warnings, function_entry's output is the call event, of kind "call" |
| Stream.CallKind | ext/src/tracing/trace_fracker.c:228 | every call event is of kind "call" |
| Stream.ExitSplit | ext/src/tracing/trace_fracker.c:269-282 | function_exit's output is the exit event, of kind "exit" |
| Stream.ReturnSplit | ext/src/tracing/trace_fracker.c:284-301 | without warnings, function_return_value's output is the return event, of kind "return" |
| Stream.HookEventKind | ext/src/tracing/trace_fracker.c:198-301 | the kind of each hook's event is the one the hook names |
| Stream.EventsInHookOrder | ext/src/tracing/trace_fracker.c:198-305 | without warnings, a trace's output is exactly one event per reporting hook, in call order |
| Stream.KindsInHookOrder | ext/src/tracing/trace_fracker.c:198-305 | the kinds of those events list the reporting hooks in call order |

## Left out

- System calls (`getaddrinfo`, `socket`, `connect`, `writev`, `close`).
  - Their outcomes are inputs: an optional candidate list, and per candidate an optional descriptor and a connect result.
  - The socket() and close() calls are reported as an ordered log, not performed.
- Partial or failed writes: the `writev` result is never checked, so every write is treated as whole.
- The JSON encoder, parser and printer, and the value renderers. These are foreign calls.
  - `php_json_encode` with `json_tokener_parse` becomes the `Encoding` of a `Value`.
  - The preview and synopsis renderers become strings stored in the `Value`.
  - `xdebug_show_fname` becomes `Frame.functionName`.
  - `json_object_to_json_string` is a parameter of `Framing`.
- The timestamp from `xdebug_get_utime`: floating point and wall-clock, so it is passed in as an opaque `real`.
- Reading `php://input` (lines 154-170): stream I/O, so the body is an `Option<string>` in `Request`.
- Memory ownership (`json_object_put`, `xdfree`, `freeaddrinfo`) and the `stderr` messages.
- The handler table at lines 307-319: it only wires the hooks to the tracer.
- The 32-bit `int` conversion of `id`, `level` and `line`: the model keeps unbounded integers.
- The parse quirk at lines 101-103.
  - An unparsable text gives a `null` field and no warning.
  - So "a null field means a warning was sent" is not claimed.
- The resource quirks.
  - The extra `close` at line 67 is recorded as written: a repeat of the last descriptor, or -1.
  - The missing `freeaddrinfo` on the early return at line 49 is not modelled.
- The resolver's linked list of addresses is a sequence.
- The warning is written before the parent is mutated, but this order is visible only through the final state: the warning is in `sent`, and `parent.members` holds the new key.
- Emitter.Session.FunctionEntry: the body of `function_entry` is split into three steps.
  - `CallInfo` covers the seven leading adds.
  - `ArgumentList` covers the argument loop; `ArgumentInfo` is one iteration of it.
  - The hook adds `arguments` and writes.
  - They run in the same order as the C code.
- The bytes on the socket are not a field of `Session`: the session keeps the documents it sent, and `Framing.Wire` gives their bytes for a printer.
