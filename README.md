# Local HTTP trigger shim — verified model

`src/main/httpServer.ts` runs a loopback-only HTTP listener. The listener forwards a text
command to an application handler and reports the outcome as JSON. This project models
its decision logic in Dafny:

- **Routing and finalize** (module `Dispatch`). `GET /health` answers 200 `{ok:true}`.
  `GET` or `POST /trigger` extracts a command and runs finalize. Anything else answers
  404 `{success:false, error:"NOT_FOUND"}`. Finalize never calls the handler for an empty
  command. It turns a throwing or rejecting handler into `false` and answers 200 or 400
  with `{success, cmd}`. `ReplyTo` is the whole request callback as one function.
- **Parameter extraction** (module `TriggerParams`, with the JSON side in `Json`). GET
  reads the query: a missing or empty `cmd` becomes `""`, and a missing or empty
  `text`/`action` is dropped. POST treats an empty body as `{}` and parses anything
  else. It coerces `cmd` with `(v?.cmd ?? '').toString()` and keeps `text`/`action` only
  when they are strings.
- **Body cap** (module `RequestBody`). `Accumulate` is the `data` handler as a loop over
  the delivered chunks. Once the body length is strictly above 1,000,000 the socket is
  destroyed and no response follows.
- **Lifecycle** (module `HttpServer`). `TriggerServer` holds the module-level `server`
  slot. `Start` does nothing while a listener exists and returns true. `Stop` clears the
  slot before closing. Ghost histories of bound and closed listeners show that at most
  one listener is ever open.

The handler is a function from `(cmd, params)` to `Returned(bool) | Threw`. JSON.parse
is an input function from the body text to `SyntaxError | Parsed(value)`. A request is
given as its method, its pathname, its decoded query pairs and its body chunks.

The coercion of `cmd` is modelled exactly as JavaScript performs it, because it decides
both the command and the error path:
- A boolean becomes `"true"`/`"false"`, and the handler is called.
- An array is joined with `","`, so `[]` becomes `""` and the handler is not called.
- A plain object becomes `"[object Object]"`.
- An object with its own `"toString"` key makes the conversion throw. That throw lands
  in the same `catch` as a syntax error, so well-formed JSON such as
  `{"cmd":{"toString":1}}` is answered with 400 `INVALID_JSON` (`Json.ToTextFailsIff`,
  `TriggerParams.FromJson`).

Notes on the code:
- The cap compares the string length of the accumulated body (UTF-16 code units after each
  chunk is decoded) with 1,000,000. It does not count bytes.
- The request callback has no catch-all: there is no `500` response.
- INVALID_JSON also covers a `cmd` whose conversion throws, as described above.

## Model

| member | source | states |
|---|---|---|
| `Json.ToTextFailsIff` | src/main/httpServer.ts:67 | `cmd.toString()` throws exactly for null, an object with its own `toString`, or an array reaching such an object through non-null elements |
| `Json.Property` | src/main/httpServer.ts:67-69 | `json?.cmd`, `json?.text` and `json?.action` find a value only on an object that has that key, and then give that key's value |
| `Json.ToText` | src/main/httpServer.ts:67 | a string converts to itself, a boolean to `"true"`/`"false"`, a number to its `toString` text, an array to the join of its elements, a plain object to `"[object Object]"`; an object fails exactly when it has its own `toString`; only the empty string and arrays convert to `""` |
| `Json.Join` | src/main/httpServer.ts:67 | a successful join of n elements has at least n-1 characters (the separators); an array of nulls joins to just its n-1 commas |
| `Json.JoinSingle` | src/main/httpServer.ts:67 | a one-element array converts as its element does, a null element giving `""` |
| `Json.JoinAppend` | src/main/httpServer.ts:67 | joining two non-empty runs of elements is the join of each run with `","` between them, and fails when either run fails; with `JoinSingle` this fixes the joined text as the element texts separated by commas |
| `Json.JoinFailsIff` | src/main/httpServer.ts:67 | joining an array's elements fails exactly when some non-null element's conversion fails |
| `Json.ScalarTextNonEmpty` | src/main/httpServer.ts:67 | a boolean, a number, a non-empty string or a plain object converts to a non-empty command |
| `TriggerParams.QueryGet` | src/main/httpServer.ts:50-52 | a query lookup is null exactly when no pair has the name, and otherwise gives the value of the first such pair |
| `TriggerParams.Truthy` | src/main/httpServer.ts:51-52 | the fallback to `undefined` never yields an empty string, keeps a non-empty string unchanged, and yields nothing else |
| `TriggerParams.FromQuery` | src/main/httpServer.ts:49-53 | GET `cmd` is non-empty exactly when the query's `cmd` is present and non-empty, and then equals it; `text`/`action` are kept exactly when present and non-empty |
| `TriggerParams.StringProperty` | src/main/httpServer.ts:68-69 | a parameter is kept exactly when the property is present and a string, and then it is that string |
| `TriggerParams.FromJson` | src/main/httpServer.ts:65-72 | extraction throws exactly when `cmd` is present, non-null and its conversion throws; absent or null `cmd` gives `""`; any other `cmd` becomes its `toString()` text, so a string passes unchanged; `text`/`action` are kept exactly when they are strings |
| `TriggerParams.CoercedCommands` | src/main/httpServer.ts:67 | `true` becomes `"true"`, `[1,null]` becomes `"1,"`, `{}` becomes `"[object Object]"` and `[]` becomes `""` |
| `TriggerParams.FromBody` | src/main/httpServer.ts:64-73 | an empty body yields `cmd = ""` with no parameters; a non-empty unparseable body is rejected; otherwise extraction works on the parsed value |
| `TriggerParams.EmptyBodyIgnoresParser` | src/main/httpServer.ts:66 | an empty body gives the same extraction whatever the parser would say |
| `TriggerParams.StringCommandBody` | src/main/httpServer.ts:66-70 | `{"cmd":c,"text":t}` with string values yields command `c` with text `t` and no action |
| `TriggerParams.ShadowedToStringRejected` | src/main/httpServer.ts:65-72 | well-formed JSON whose `cmd` object has its own `toString` is rejected like a syntax error |
| `RequestBody.Concat` | src/main/httpServer.ts:59 | no chunks give the empty body; the body ends with the latest chunk and is at least as long as every chunk |
| `RequestBody.ConcatPrefix` | src/main/httpServer.ts:57-59 | each earlier body is a prefix of every later one: chunks are only appended |
| `RequestBody.ConcatPrefixShorter` | src/main/httpServer.ts:57-60 | the accumulated body never gets shorter as chunks arrive |
| `RequestBody.Received` | src/main/httpServer.ts:57-64 | the `end` handler sees no body exactly when some prefix of the chunks exceeds 1,000,000; otherwise it sees all chunks concatenated, within the cap |
| `RequestBody.Accumulate` | src/main/httpServer.ts:57-63 | the socket is destroyed exactly when the whole body would exceed 1,000,000; if it is not destroyed the body is all chunks concatenated; if it is destroyed, destruction happens at the first chunk that takes the length strictly above the cap |
| `Dispatch.RouteOf` | src/main/httpServer.ts:31-35 | health exactly for GET /health; the trigger route for GET or POST /trigger, by method; unrouted for every other pair |
| `Dispatch.Respond` | src/main/httpServer.ts:23-28 | every response carries the `application/json` content type, with the given status and body |
| `Dispatch.Finalize` | src/main/httpServer.ts:37-47 | the handler is called once, with the extracted command and parameters, exactly when `cmd` is non-empty; status is 200 exactly when it returned true and 400 otherwise (a throw counts as false); the body is `{success: status==200, cmd}` |
| `Dispatch.ReplyTo` | src/main/httpServer.ts:20-79 | every response is JSON with status 200, 400 or 404; a handler call always has a non-empty command; 404 only ever carries NOT_FOUND and only for unrouted requests |
| `Dispatch.HealthOnlyForGetHealth` | src/main/httpServer.ts:31-33 | the `{ok:true}` body is sent exactly for GET /health, and always with 200 |
| `Dispatch.NotFoundIff` | src/main/httpServer.ts:31-79 | 404 NOT_FOUND exactly when the request is neither GET /health nor GET/POST /trigger |
| `Dispatch.EmptyCommandSkipsHandler` | src/main/httpServer.ts:37-46 | a GET or POST /trigger request whose extracted command is empty (from the query, or from an accepted body such as `{}`, `{"cmd":""}`, `{"cmd":null}` or `{"cmd":[]}`) answers 400 `{success:false, cmd:""}` without calling the handler, whatever the handler is |
| `Dispatch.CommandFromRequest` | src/main/httpServer.ts:8-70 | GET /trigger runs finalize on the command and parameters from the query; POST /trigger with an accepted body runs it on those from the body, so the handler receives, and the reply echoes, the request's own command |
| `Dispatch.GetWithoutCommand` | src/main/httpServer.ts:49-53 | GET /trigger with no `cmd` parameter answers 400 with an empty command |
| `Dispatch.TriggerReplies` | src/main/httpServer.ts:35-74 | on /trigger, 200 exactly when the handler was called and returned true; every failure is 400 and either echoes the command or is INVALID_JSON with no handler call |
| `Dispatch.DestroyedIff` | src/main/httpServer.ts:57-63 | the socket is destroyed without a response exactly for POST /trigger with a body longer than 1,000,000 |
| `Dispatch.InvalidJsonIff` | src/main/httpServer.ts:64-73 | INVALID_JSON exactly for POST /trigger whose received body is non-empty and either unparseable or has a `cmd` whose conversion throws |
| `HttpServer.HandleRequest` | src/main/httpServer.ts:20-80 | the request callback, with its chunk loop, produces exactly the reply `ReplyTo` specifies |
| `HttpServer.TriggerServer.constructor` | src/main/httpServer.ts:4 | the slot starts empty, with no listener bound |
| `HttpServer.TriggerServer.Start` | src/main/httpServer.ts:12-93 | with a listener present: returns true and changes nothing; otherwise binds `(port, handler)` and returns true, or, when binding throws synchronously, leaves the slot empty and returns false; at most one listener stays open |
| `HttpServer.TriggerServer.Serve` | src/main/httpServer.ts:14-20 | a request reaching the bound listener is answered by `ReplyTo` with the handler that `Start` stored |
| `HttpServer.TriggerServer.Stop` | src/main/httpServer.ts:95-106 | afterwards the slot is empty; the listener that was present, if any, had close called once; with no listener nothing changes |
| `HttpServer.StartTwice` | src/main/httpServer.ts:16-18 | two starts both return true and bind once, to the first port and handler, whatever binding would do on the second call; a request served afterwards is answered with the first handler |
| `HttpServer.StopTwice` | src/main/httpServer.ts:95-106 | stop followed by stop leaves the same state as one stop |

## Left out

- Node's `http.createServer`, `listen`, sockets and the `req.on` event wiring are foreign I/O. A request is abstract input and `socket.destroy()` is the `Destroyed` reply.
- After `socket.destroy()` the model assumes Node delivers no further `data` or `end` event, so accumulation stops there.
- Decoding each `data` Buffer into text (UTF-8, with replacement characters at split sequences) is not modelled. A chunk is given as text, one Dafny character per UTF-16 code unit.
- `new URL(...)` and the Host-header base (lines 21-22) are a library call, so pathname and decoded query pairs are given. A malformed Host header makes that constructor throw outside any `catch`; that failure is not part of this model.
- `JSON.parse` and `JSON.stringify` are not modelled. Parsing is an input function, and responses are datatypes rather than serialised text. A JSON number is represented by the text `Number.prototype.toString` gives for it; that text is never empty, and its exact digits are not modelled.
- `async`/`await`, `Promise.resolve` and the interleaving of concurrent requests are not modelled. The handler's awaited outcome is its result.
- A handler that resolves to a non-boolean value is not modelled. The source would use its truthiness for the status and echo the raw value as `success`; the handler type promises a boolean.
- Console logging and the `server.on('error')` listener (lines 82-86, 89, 101) only log.
- Asynchronous bind failures, such as a port already in use, arrive through the `error` event, and `start` has already returned true by then. The `bindThrows` input covers only a synchronous throw.
- `HttpServer.TriggerServer.Stop` has no input for a failing `close()`. The failure is swallowed after the slot is already cleared, so the resulting state is the same either way.
