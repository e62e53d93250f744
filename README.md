# OscWardrobe: the outbound `send` path and the script-extraction directory

OscWardrobe hosts Lua scripts that react to VRChat OSC events. This project
models three pieces of it in Dafny and proves properties about them:

- **`osc.send`, the script side** (`LuaEngine._callSend`). The Lua stack is a
  sequence of tagged values (`nil`, boolean, number, string, or an opaque type
  such as a table or function). `send` looks at how many arguments it got and
  does one of four things:
  - refuses with `(nil, "no key")`;
  - makes an untyped hook call;
  - refuses with `(nil, "not implemented: …")`;
  - makes a typed hook call, with the last argument marshalled into `args[0]`.

  The `OnSendFunctionCalled` hook is modelled as a returned `HookCall` event
  carrying the key and the `object[]`. `LuaEngine.CallSend` is an imperative
  method over a `LuaState` object whose `stack` field it changes. It allocates
  and fills the `args` array as the source does. It is proved against the
  specification function `LuaEngine.CallSendReply`.
- **`WrappedSend`, the host side** (`Bindings.WrappedSend`). This is a pure
  decision procedure. It checks the connection, then the number of values, then
  the runtime type of the value. It returns the client calls it issues (at most
  one) and the string it returns (`None` is `null`, meaning success).
- **Start-up wiring.** `Program.cs` (line 10) subscribes the hook to `WrappedSend`. Module
  `SendWiring` composes the two pieces and proves end-to-end facts about
  `osc.send`.
- **The extraction directory** (`FormApplication.ExtractLuaIfNeeded` and
  `ExtractLuaForce`). The file system is a finite set of existing directory
  paths. `Path.Combine` is modelled with its Windows rules, including an empty name. `ExtractLuaForce`'s
  loop is a `while` loop with invariants and a termination argument. It is
  proved to stop at the *first* free name among `lua`, `lua (1)`, `lua (2)`, ….
  Extracting the archive and opening Explorer are returned as effects on the
  chosen path.

Modules:

- `HostTypes`: `Option`, the nullable `Key`, and `HostObject` (a boxed C# object).
- `LuaEngine`
- `Bindings`
- `FormApplication`
- `SendWiring`

Calls into code that is not visible are parameters of the model:

- The interpreter's number-to-string formatting (`numberToString`).
- `OscQueryServiceServiceAndClient.SendNumber` (the `sendNumber` field of
  `Bindings.Osc`), a function that returns an optional error.

## Model

| member | source | states |
|---|---|---|
| `LuaEngine.Classify` | LuaEngine.cs:31-44 | The last argument becomes null exactly when it is not a boolean, number or string. A boolean, number or string keeps its payload. The result is never an object of another host type. |
| `LuaEngine.CallSendReply` | LuaEngine.cs:12-48 | No hook call is made exactly when there are 0 or 3 arguments. Then the script gets `(nil, "no key")` or `(nil, "not implemented: send() takes 1 or 2 arguments")`. A hook call happens exactly when the script gets `true` alone. The key is `lua_tostring` of slot -1 with one argument, or of slot -2 (the second-to-last argument) otherwise. `args` has length 1, or `nargs - 1` for two or more arguments. `args[0]` is null with one argument and the classified last argument otherwise. Every later slot is null. |
| `LuaEngine.LuaState.ToString` | LuaEngine.cs:45 | `lua_tostring` gives a string as it is and a number in its string form. It gives NULL for any other type. It converts a number slot to a string in place and leaves every other slot unchanged. |
| `LuaEngine.CallSend` | LuaEngine.cs:12-48 | The imperative `_callSend` makes exactly the hook call `CallSendReply` specifies. The top `nresults` stack values are exactly the values it returns. The stack below them holds the arguments, where only the key slot may have been converted by `lua_tostring`. |
| `LuaEngine.CorrectedCallSendReply` | LuaEngine.cs:20-24 | Corrected one-argument form: `send(key)` hands the hook an empty argument array. The script results are always those of `CallSendReply`. Every other argument count behaves exactly as `CallSendReply`. |
| `Bindings.WrappedSend` | Bindings.cs:2-26 | At most one client call is issued. Any call goes to `key` and transmits exactly `values`. A missing client gives "Not connected to VRChat client" and no call, before any other check. More than one value gives the arity message and no call. A single `double` issues exactly one `SendNumber` call and returns exactly `SendNumber`'s optional error. A null value or a value of another type gives `"Not implemented: "` followed by the helper `TypeName`'s rendering of `value?.GetType().Name ?? "null"`, and no call. Success always means exactly one call. A failing call is a number send whose error comes from `SendNumber`. With zero values, or one bool or string value, the result is success. |
| `FormApplication.Combine` | FormApplication.cs:15 | `Path.Combine` ends with the relative name it is given, and an empty name leaves the directory unchanged. |
| `FormApplication.CombineInjective` | FormApplication.cs:23-26 | For a fixed working directory, two relative names give equal combined paths only if the names are equal. |
| `FormApplication.DecimalString` | FormApplication.cs:26 | The counter's decimal form is a non-empty string of digits. |
| `FormApplication.DecimalRoundTrip` | FormApplication.cs:26 | The counter's decimal form parses back to the counter, so different counters give different names. |
| `FormApplication.CandidateInjective` | FormApplication.cs:23-27 | Different counter values give different candidate directories, so the search never tries the same directory twice. |
| `FormApplication.FirstFreeUnique` | FormApplication.cs:25-27 | At most one counter is the first one whose directory does not exist, so the choice is determined by the existing set. |
| `FormApplication.ExtractLuaIfNeeded` | FormApplication.cs:14-19 | Returns `false` and extracts nothing when `workDir/lua` exists. Otherwise it extracts into exactly `workDir/lua` and returns `true`. It extracts exactly when `lua` is the first free candidate. |
| `FormApplication.ExtractLuaForce` | FormApplication.cs:22-30 | Terminates for every finite set of existing directories. The chosen directory does not exist, and it is the k-th candidate for some k where every earlier candidate exists (the first free name). The archive is extracted into that directory, and then that same directory is opened. |
| `SendWiring.DownstreamErrorsNeverReachScript` | LuaEngine.cs:45-47 | What the script gets back does not depend on the dispatcher's answer. Whenever the dispatcher is reached, the script gets `true` alone. |
| `SendWiring.NilSendUnreachable` | Bindings.cs:4-7 | The hook never receives an empty argument array, so no script call ever issues `SendNil`. |
| `Bindings.NullValueRejected` | Bindings.cs:21-22 | On a connected client, a single null value, whatever the key, issues no call and gives "Not implemented: null". |
| `SendWiring.ScriptSend` | Program.cs:10 | The hook subscription: `ScriptSend` is defined as the helper `Deliver` (the engine's hook call, if any, handed to `WrappedSend`) applied to `CallSendReply`. A script's `osc.send` reaches the dispatcher exactly when it has neither 0 nor 3 arguments; then the script gets `true` alone, otherwise a `(nil, message)` pair. |
| `SendWiring.OneArgumentSendIsRejected` | LuaEngine.cs:20-24 | As written, a connected `send(key)` issues no client call and the dispatcher answers "Not implemented: null". The script still gets `true`. |
| `SendWiring.CorrectedOneArgumentSendIsNil` | Bindings.cs:4-7 | With the correction, a connected `send(key)` issues exactly `SendNil(key)` and succeeds. |
| `SendWiring.CorrectionIsLocal` | LuaEngine.cs:25-47 | For every argument count other than one, the corrected and the as-written paths have the same outcome. |
| `SendWiring.TwoArgumentSendForwardsValue` | LuaEngine.cs:30-47 | On a connected client, `send(key, v)` issues one call to `key`: `SendBool` for a boolean, `SendString` for a string, and `SendNumber` for a number (passing on its error). Any other value issues nothing and is reported as "Not implemented: null". The script gets `true` in every case. |
| `SendWiring.ExtraArgumentsDroppedDownstream` | Bindings.cs:8 | With four or more arguments on a connected client, nothing is sent and the dispatcher answers with the arity message. The script gets `true`. |

## Left out

- The `LuaEngine` constructor, `OnReceiveAvatarChange`, `Dispose` and `printState` are left out. They run scripts through the native Lua library or only print.
- Lua number semantics are left out. A number, and the `double` it is marshalled to, is an opaque `real`. The integer-to-double conversion of `lua_tonumber` and all floating-point behaviour are not modelled.
- `SendNumber` and `numberToString` are parameters. The endpoint-type lookup in `SendNumber` and whatever client call it makes are not modelled. The model records only that `SendNumber` was called, and its error.
- The OSC client is reduced to whether it exists. The UDP sends themselves are recorded calls.
- Zip extraction, the embedded-resource lookup (`GetStream`, which throws when a resource is missing) and the start of `explorer.exe` are recorded as effects on the chosen path. A failing extraction is not modelled.
- Lua strings are byte strings. The conversion of a Lua string to a .NET string inside the binding's `lua_tostring` is not modelled; the model passes the characters through unchanged.
- `Bindings.WrappedSend`: client calls are assumed never to throw. A null key (for example `osc.send({}, true)`, whose key slot is a table) is recorded as a successful call to a null address; in the program an exception there would escape the native callback and never reach the script.
- `FormApplication.ExtractLuaForce`: the counter is an unbounded `nat`. The source's `int i` is 32 bits and would wrap after 2^31-1 existing candidates; that wrap-around is not modelled.
- `Directory.Exists` is membership in a set of path strings. Case-insensitive matching and path normalisation on Windows are not modelled.
- `FormApplication.Combine` assumes a non-null working directory, because `Path.Combine` throws on null.
- The tray icon, context menu, license window and UI thread of `FormApplication` are left out. They are UI only.
- `OscQueryServiceAndClient.cs`, `Program.cs` apart from the hook subscription, and `ThreadEvents.cs` are left out. They are network I/O, threads and cross-thread signalling.
- `FormApplication.ExtractLua`, `LuaEngine.Call` and `LuaEngine.Update` are not part of this model. They are called from `Program.cs` but are not defined in the files modelled here.
- The capability jail, coroutine scheduler, keep-alive registry, table-to-tree conversion and configuration/menu loader are not part of this model. They are described for the system but have no code in these files.
- The hook's error string is dropped. `Program.cs:10` subscribes `WrappedSend`, which returns a string, to a hook declared as `Action<string, object[]>` (`LuaEngine.cs:10`). As written that line does not compile, because C# does not convert a string-returning method to a void-returning delegate. The model reads it as an intended discard and follows the declared hook type: the returned string is dropped. The script always gets `true`, although the intended `(ok, error)` convention would return `(false, message)` on failure.

## Findings

| source | as written | input that shows it | evidently intended | confidence | as-written member | corrected member |
|---|---|---|---|---|---|---|
| LuaEngine.cs:21 | `send(key)` passes `new object[] { null }` to the hook, so `WrappedSend` takes its `default` branch and returns "Not implemented: null" without sending. Its `SendNil` branch (Bindings.cs:4-7) is unreachable from any script. | `osc.send("/addr")` with a connected client | an untyped send: the hook receives an empty array and `WrappedSend` issues `SendNil("/addr")` | medium; not executed | `SendWiring.OneArgumentSendIsRejected` | `LuaEngine.CorrectedCallSendReply` |
