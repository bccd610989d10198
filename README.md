# ui-act: input injection and agent turns, in Dafny

ui-act lets a language model operate a desktop. It creates its own pointer and keyboard as
Linux uinput devices, attaches them to a separate X input seat (an MPX master) so the user
keeps their own pointer, and runs a conversation loop with the model. Each `computer` tool
call from the model becomes mouse and keyboard events, and a fresh screenshot goes back to
the model. The repository has a Rust implementation (`ui_act/src`) and an earlier Python one
(`python/mpx.py`, `agent.py`, `mpx.py`).

This project models the logic of that core:

- **Event trace.** A device is a `VirtualDevice` (module `InputEvents`): an append-only trace
  of the events it accepted, plus a count of write attempts. A device operation is a *write
  program* (`seq<Step>`):
  - a `Must` step is a write whose failure ends the operation (Rust `?`, a Python exception);
  - a `Try` step is a write whose result is discarded.
  Which writes fail comes from an oracle, `fault(k)` for the k-th write. `Exec` runs a
  program against the oracle. Every device method is proved to do exactly what its program
  says, on every fault pattern.
- **Rust device layer** (`KeyMap`, `Device`, `XInput`):
  - the key-combination tokenizer and the character table;
  - the keyboard and mouse recipes;
  - the sign and axis of each scroll direction;
  - the MPX seat lookup-or-create rule over scripted `xinput` results;
  - the `xinput list` line scanner.
- **Rust conversation loop** (`Agent`, `AgentProtocol`). `AnthropicAgent::run` is a method
  over an environment, a model client and standard input, all three scripted oracles. A
  functional specification (`Round`, `RunFrom`, `RunSpec`) states what the loop does, and
  lemmas prove from it:
  - user/assistant alternation;
  - one tool result per `computer` tool use, in order;
  - the action count;
  - the termination rules.
- **Single-window environment** (`SingleWindow`):
  - the bounds check against freshly queried geometry, and the offset by the window origin;
  - the always-on-top client message, set on creation and cleared on drop;
  - the window-name fallback;
  - the crop rectangle.
- **Python layer** (`PyText`, `PyMpx`, `PyAgent`, `MpxDemo`):
  - the two regular expressions and the `xdpyinfo`/`xinput` parsers;
  - `keypress`, which releases in `finally` exactly the keys it pressed, in reverse;
  - shift-bracketed `type`, related to the Rust `type_text`;
  - `scroll`, `click` and the origin-offset `move_to`;
  - the `__enter__`/`__exit__` sequence and the always-on-top restoration;
  - `handle_item`, with its argument filtering, scroll clamp and reply construction;
  - the `main` item loops;
  - the demo script's capability bounds and its close on every path.

Which `xinput` or X request fails is always a parameter: a script of results indexed by the
number of requests made so far. Sleeps are left out.

## Model

| member | source | states |
|---|---|---|
| Text.Split | ui_act/src/device.rs:376 | `split('+')` always yields at least one part, and no part contains the separator |
| Text.JoinSplit | ui_act/src/device.rs:376 | joining the parts of a split with the separator gives back the original string |
| Text.SplitJoin | ui_act/src/device.rs:376 | splitting a join of separator-free parts gives back those parts (split and join are inverses) |
| Text.RustLower | ui_act/src/device.rs:380 | `to_lowercase` on a token maps each character independently and keeps the length |
| Text.Trim | ui_act/src/agent.rs:215 | the trimmed line neither starts nor ends with whitespace |
| Text.SplitWhitespace | ui_act/src/device.rs:46 | `split_whitespace` yields only non-empty words |
| Text.ParseI32 | ui_act/src/device.rs:48 | `parse::<i32>()` only ever yields a value within the 32-bit signed range |
| Text.ParseI32OfDecimal | ui_act/src/device.rs:47-48 | the decimal spelling of any n up to `i32::MAX` parses back to n |
| Text.DecimalRoundTrip | ui_act/src/device.rs:48 | the decimal spelling of every natural number reads back as that number |
| Seqs.ReverseAt | ui_act/src/device.rs:344 | position k of `iter().rev()` is position n-1-k of the original |
| Seqs.ReverseReverse | ui_act/src/device.rs:344 | reversing twice gives back the original sequence |
| Seqs.Reverse | ui_act/src/device.rs:344 | `iter().rev()` keeps the length |
| Seqs.ReverseAppend | ui_act/src/device.rs:360 | reversing `a + b` gives the reverse of `b` followed by the reverse of `a` |
| InputEvents.VirtualDevice.Write | ui_act/src/device.rs:160 | a write is attempt number `writes`; the event joins the trace exactly when the oracle lets it through, and the write's result is the oracle's answer |
| InputEvents.VirtualDevice.Close | mpx.py:44 | closing counts one close and changes neither the trace nor the write count |
| InputEvents.VirtualDevice.constructor | ui_act/src/device.rs:284 | a newly created device has accepted no event, has had no write attempt and is not closed |
| InputEvents.ExecAppend | ui_act/src/device.rs:159-164 | running `p + q` is running `p`, and then `q` only when `p` did not fail |
| InputEvents.ExecFaultFree | ui_act/src/device.rs:159-164 | when no write fails, a program emits exactly its events |
| InputEvents.ExecMustPrefix | ui_act/src/device.rs:159-164 | a program of `?` writes emits a prefix of its events; the whole program when nothing fails, a proper prefix when something does |
| InputEvents.DownAllAt | ui_act/src/device.rs:338-340 | pressing keys in order puts key i's press and its sync at positions 2i and 2i+1 |
| InputEvents.UpAllAt | ui_act/src/device.rs:344-346 | releasing keys in order puts key i's release and its sync at positions 2i and 2i+1 |
| InputEvents.DownAllAppend | ui_act/src/device.rs:338-340 | pressing `a + b` is pressing `a` and then `b` |
| InputEvents.UpAllAppend | ui_act/src/device.rs:344-346 | releasing `a + b` is releasing `a` and then `b` |
| InputEvents.DownAllEvents | ui_act/src/device.rs:338-340 | in the events of pressing keys in order, key i is pressed at position 2i and synced at 2i+1 |
| InputEvents.UpAllEvents | ui_act/src/device.rs:344-346 | in the events of releasing keys in order, key i is released at position 2i and synced at 2i+1 |
| KeyMap.ParseWith | ui_act/src/device.rs:373-452 | the parse succeeds iff every `+`-separated part is known; on success it gives one key per part, in order; on failure it names the first unknown part |
| KeyMap.ParseParts | ui_act/src/device.rs:373-452 | the loop over the parts, with its early return, computes `ParseWith` |
| KeyMap.ParseKeyCombination | ui_act/src/device.rs:373-452 | the loop over the parts computes `ParseCombination` over the real name table |
| KeyMap.FirstUnknownAt | ui_act/src/device.rs:377-446 | when parts 0..i-1 are known and part i is not, the parse reports part i |
| KeyMap.EmptyPartFails | ui_act/src/device.rs:446 | an empty part anywhere fails the whole parse |
| KeyMap.TrailingPlusNamesEmptyPart | ui_act/src/device.rs:376-446 | `"ctrl+"` fails and names the empty token |
| KeyMap.ControlAliases | ui_act/src/device.rs:381 | `ctrl` and `control` both name LeftControl |
| KeyMap.MetaAliases | ui_act/src/device.rs:384 | `meta`, `win` and `super` all name LeftMeta |
| KeyMap.EnterAliases | ui_act/src/device.rs:437 | `enter` and `return` both name Enter |
| KeyMap.EscapeAliases | ui_act/src/device.rs:438 | `escape` and `esc` both name Esc |
| KeyMap.DeleteAliases | ui_act/src/device.rs:440 | `delete` and `del` both name Delete |
| KeyMap.CombinationIgnoresAsciiCase | ui_act/src/device.rs:376-380 | two combinations that differ only in ASCII case parse to the same result |
| KeyMap.RustLowerIgnoresAsciiCase | ui_act/src/device.rs:380 | two tokens that differ only in ASCII case have the same lowercase |
| KeyMap.NameOfInTable | ui_act/src/device.rs:380-445 | every key with a canonical name is found again under that name |
| KeyMap.NamedKeysInTable | ui_act/src/device.rs:381-445 | every named key other than letters, digits and F-keys is found again under its name |
| KeyMap.FunctionNameInTable | ui_act/src/device.rs:424-435 | `f1`…`f12` name F1…F12 |
| KeyMap.NameOfResolves | ui_act/src/device.rs:380-445 | a canonical name contains no `+` and, as a part, resolves to its own key |
| KeyMap.ParseJoinedNames | ui_act/src/device.rs:373-452 | parsing the `+`-join of the names of any non-empty key sequence gives back exactly that sequence |
| KeyMap.BaseKeys | ui_act/src/device.rs:460-508 | the table gives at most one key and one modifier, and nothing exactly for untypeable characters and for ASCII capitals (whose lowercase is looked up instead) |
| KeyMap.CharToKeys | ui_act/src/device.rs:454-510 | at most two keys; an uppercase character gets a leading LeftShift; the result is empty iff the character is neither uppercase nor in the table |
| KeyMap.CharToKeysCases | ui_act/src/device.rs:454-510 | capitals are `[LeftShift, letter]`; `:`, `_`, `?` are `[LeftShift, base]`; an uppercase character without an entry is `[LeftShift]` alone |
| KeyMap.ChordCharInverts | ui_act/src/device.rs:454-510 | for every typeable ASCII character the chord it produces determines the character again |
| KeyMap.CharToKeysInjective | ui_act/src/device.rs:454-510 | two distinct typeable ASCII characters never produce the same keys |
| KeyMap.BaseKeysInvert | ui_act/src/device.rs:460-508 | the table entry of every digit and of `" .;:-_,/?"` and newline determines the character again |
| KeyMap.PunctuationInverts | ui_act/src/device.rs:497-507 | the table entry of each of `" .;:-_,/?"` and newline determines the character again |
| Device.U32AsI32 | ui_act/src/device.rs:160-161 | `x as i32` is the identity up to `i32::MAX` and wraps by 2^32 above |
| Device.WrapI32 | ui_act/src/device.rs:181 | the product is taken modulo 2^32 into the signed range, and is unchanged when it already fits |
| Device.Send | ui_act/src/device.rs:160 | one `?`-propagated write: trace, write count and result follow the oracle |
| Device.SendIgnoringResult | ui_act/src/device.rs:187 | a write whose result is dropped: the operation goes on whatever the oracle says |
| Device.ScrollDirectionNames | ui_act/src/device.rs:96-104 | `from_str` accepts exactly `up`, `down`, `right`, `left`, round-trips with the direction's name, and reports any other input |
| Device.DirectionSigns | ui_act/src/device.rs:106-113 | the multiplier is +1 exactly for Up and Right and -1 exactly for Down and Left; the wheel is vertical exactly for Up and Down |
| Device.ScrollEvents | ui_act/src/device.rs:166-184 | for amounts up to `i32::MAX`, `scroll` writes one wheel event of value `amount * multiplier` on the direction's axis, then a sync |
| Device.ScrollWrapsAboveI32 | ui_act/src/device.rs:181 | an amount of `u32::MAX` becomes -1 after `as i32`, so the wheel turns one notch the opposite way |
| Device.ClickEvents | ui_act/src/device.rs:222-232 | a click is down, sync, up, sync of the same button |
| Device.ClickCounts | ui_act/src/device.rs:222-232 | a click presses and releases its button exactly once and touches no other button |
| Device.MultiClickCounts | ui_act/src/device.rs:248-262 | a double click presses and releases Left twice; a triple click three times |
| Device.ClickDragEvents | ui_act/src/device.rs:234-246 | a drag is down(b), sync, X, Y, sync, up(b), sync |
| Device.ButtonWriteFailureIgnored | ui_act/src/device.rs:186-191 | a failed button write is dropped and only its sync reaches the device |
| Device.ClickStopsAtFailedSync | ui_act/src/device.rs:186-232 | a failed sync after the press ends the click before the release |
| Device.MouseDevice.constructor | ui_act/src/device.rs:152-156 | the device keeps its id, name and uinput handle |
| Device.MouseDevice.MouseMove | ui_act/src/device.rs:159-164 | the method performs exactly the program X, Y, sync, stopping at the first failed write |
| Device.MouseDevice.Scroll | ui_act/src/device.rs:166-184 | the method performs exactly the scroll program |
| Device.MouseDevice.MouseButtonDown | ui_act/src/device.rs:186-191 | the method performs exactly the press program (ignored write, `?` sync) |
| Device.MouseDevice.MouseButtonUp | ui_act/src/device.rs:193-198 | the method performs exactly the release program (ignored write, `?` sync) |
| Device.MouseDevice.MouseDown | ui_act/src/device.rs:202-210 | the method performs exactly the press program of the mapped button |
| Device.MouseDevice.MouseUp | ui_act/src/device.rs:212-220 | the method performs exactly the release program of the mapped button |
| Device.MouseDevice.Click | ui_act/src/device.rs:222-232 | the method performs exactly the press program then the release program |
| Device.MouseDevice.ClickDrag | ui_act/src/device.rs:234-246 | the method performs exactly press, move, release |
| Device.MouseDevice.LeftClick | ui_act/src/env/single_window.rs:134-136 | `left_click` is `click(Left)` |
| Device.MouseDevice.RightClick | ui_act/src/env/single_window.rs:138-140 | `right_click` is `click(Right)` |
| Device.MouseDevice.DoubleClick | ui_act/src/device.rs:248-253 | the method performs exactly two Left clicks, the second only if the first succeeded |
| Device.MouseDevice.TripleClick | ui_act/src/device.rs:255-262 | the method performs exactly three Left clicks, stopping at the first failure |
| Device.CharProgramIsChord | ui_act/src/device.rs:297-365 | typing one character's keys (modifiers down, main down, main up, modifiers up in reverse) is the same program as pressing them as a chord |
| Device.PressEvents | ui_act/src/device.rs:350-365 | a chord of n keys emits 4n events: the downs of every key in order, then the ups in exact reverse order, each followed by a sync |
| Device.TypeProgramAppend | ui_act/src/device.rs:297-322 | typing `a + b` is typing `a` and then `b` |
| Device.TypeProgramStep | ui_act/src/device.rs:299-318 | typing the first i+1 characters is typing the first i and then character i |
| Device.TypeProgramSplit | ui_act/src/device.rs:297-322 | typing a text is typing the prefix, then character i, then the rest |
| Device.TypeSkipsUnmapped | ui_act/src/device.rs:299-302 | a character without keys emits nothing, and the characters after it are still typed |
| Device.KeyboardDevice.constructor | ui_act/src/device.rs:290-294 | the device keeps its id, name and uinput handle |
| Device.KeyboardDevice.KeyDown | ui_act/src/device.rs:324-328 | the method performs exactly the program down(k), sync |
| Device.KeyboardDevice.KeyUp | ui_act/src/device.rs:330-334 | the method performs exactly the program up(k), sync |
| Device.KeyboardDevice.KeysDown | ui_act/src/device.rs:338-340 | the loop presses every key in order, stopping at the first failure |
| Device.KeyboardDevice.KeysUp | ui_act/src/device.rs:344-346 | the loop releases every key of its argument in order, stopping at the first failure |
| Device.KeyboardDevice.KeysUpReversed | ui_act/src/device.rs:344-346 | the keys are released in reverse order |
| Device.KeyboardDevice.Chord | ui_act/src/device.rs:354-362 | the method performs exactly all downs in order, then all ups in reverse |
| Device.KeyboardDevice.PressKey | ui_act/src/device.rs:350-365 | a parse error returns that error with the device untouched; otherwise the method performs exactly the chord of the parsed keys |
| Device.KeyboardDevice.HoldKey | ui_act/src/device.rs:336-348 | the same as `press_key`; the hold duration is only a sleep |
| Device.KeyboardDevice.TypeKeys | ui_act/src/device.rs:303-318 | one character's keys: modifiers down, main down, main up, modifiers up in reverse |
| Device.KeyboardDevice.TypeText | ui_act/src/device.rs:297-322 | the method performs exactly the concatenation of every character's program, skipping characters without keys |
| XInput.XServer.constructor | ui_act/src/device.rs:42 | no command has been run yet |
| XInput.XServer.Run | ui_act/src/device.rs:42-60 | each command is logged and answered from the next scripted result |
| XInput.XServer.GetDeviceIdByName | ui_act/src/device.rs:41-56 | one `xinput list`, and the result is the line scan of its output (or the command's failure) |
| XInput.XServer.RunXInput | ui_act/src/device.rs:58-70 | one command; the outcome is success exactly when it ran and exited successfully |
| XInput.XServer.CreateMaster | ui_act/src/device.rs:21-38 | the commands issued and the result are exactly the lookup-or-create specification |
| XInput.XServer.LookUpSeat | ui_act/src/device.rs:23-26 | two lookups, of "name pointer" and "name keyboard"; both succeed iff the seat is already listed |
| XInput.XServer.CreateAndFetch | ui_act/src/device.rs:31-37 | `create-master`, then the two lookups only if it succeeded |
| XInput.XServer.FetchMaster | ui_act/src/device.rs:34-37 | the pointer lookup, then the keyboard lookup only if that succeeded |
| XInput.FirstIdIn | ui_act/src/device.rs:44-54 | the loop returns the id of the first line that contains the name and carries a parseable `id=` word |
| XInput.FirstWithPrefix | ui_act/src/device.rs:46 | `find(starts_with("id="))` gives the first word with that prefix, or none |
| XInput.IdOnLine | ui_act/src/device.rs:46-48 | an id read from a line lies within the 32-bit signed range |
| XInput.FindIdWith | ui_act/src/device.rs:44-55 | the scan finds nothing iff no line matches |
| XInput.LookupResult | ui_act/src/device.rs:41-56 | a failed lookup means either the command failed or "Device … not found" for that name |
| XInput.CommandOutcome | ui_act/src/device.rs:60-69 | a command succeeds iff it ran and its status is success |
| XInput.CreateOnlyWhenMissing | ui_act/src/device.rs:21-38 | two lookups come first; if the seat is listed nothing else runs; otherwise `create-master <name>` runs exactly once, and never for any other name |
| XInput.CreatedSeatIds | ui_act/src/device.rs:23-35 | a created or reused seat carries the ids read from the pointer and keyboard listings |
| XInput.FailedCreationStops | ui_act/src/device.rs:31 | a failing `create-master` ends creation with the xinput error after three commands |
| XInput.StillMissingFails | ui_act/src/device.rs:34 | if the pointer is still missing after `create-master`, creation fails naming it |
| XInput.IdOnLineReadsDecimal | ui_act/src/device.rs:46-48 | the first `id=N` word on a line yields N |
| Agent.Environment.constructor | ui_act/src/env.rs:6-21 | an environment with a fixed script of answers and no calls yet |
| Agent.Environment.Perform | ui_act/src/agent.rs:150-170 | every environment call is logged and answered from the script |
| Agent.ModelClient.constructor | ui_act/src/agent.rs:85-97 | a client with a fixed script of HTTP replies and no requests yet |
| Agent.ModelClient.GetResponse | ui_act/src/agent.rs:248-270 | the request records the model, the tool declaration with the current screenshot's width and height, and the messages so far |
| Agent.ResponseOf | ui_act/src/agent.rs:117-132 | a response is processed only if the request got a reply, the status is success and the body parses |
| Agent.Terminal.constructor | ui_act/src/agent.rs:113-114 | standard input as a script of lines, none read yet |
| Agent.Terminal.NextLine | ui_act/src/agent.rs:214 | each read consumes the next scripted line |
| Agent.ReadInput | ui_act/src/agent.rs:214-238 | a failed read is an error; end of input quits; a kept message is exactly the trimmed line, and every trimmed line that is non-empty and not `exit` is kept |
| Agent.Round | ui_act/src/agent.rs:116-243 | a pass that continues has made exactly one more request |
| Agent.Call | ui_act/src/agent.rs:150-170 | one environment call with `?`: logged, and it fails iff its answer is an error |
| Agent.Capture | ui_act/src/agent.rs:180-181 | the screenshot and width calls and their result are exactly the capture specification |
| Agent.MoveAndClick | ui_act/src/agent.rs:147-164 | the move and then the click, stopping at and reporting the first failing call |
| Agent.Act | ui_act/src/agent.rs:146-174 | the calls of the action (clicks move first; `type` and `key` one call; `screenshot` none), stopping at the first failure |
| Agent.DispatchNext | ui_act/src/agent.rs:137-199 | handling the blocks up to i+1 is handling block i after the blocks before it |
| Agent.DispatchStopsAtFailure | ui_act/src/agent.rs:137-199 | after the first failing block no later block is handled |
| Agent.Agent.constructor | ui_act/src/agent.rs:90-95 | a fresh agent has counted no actions |
| Agent.Agent.HandleBlock | ui_act/src/agent.rs:138-198 | handling one block changes calls, results, action count and screenshot exactly as `Step` specifies |
| Agent.Agent.DispatchBlocks | ui_act/src/agent.rs:137-199 | the loop over the response blocks computes `Dispatch` |
| Agent.Agent.PlayRound | ui_act/src/agent.rs:117-242 | one pass of the loop is exactly `Round` of the functional specification |
| Agent.Agent.Run | ui_act/src/agent.rs:100-246 | the whole run (messages, action count, calls, requests, lines read, result) is exactly `RunSpec` |
| AgentProtocol.StepEffect | ui_act/src/agent.rs:138-198 | a `computer` tool use counts one action and, when it succeeds, adds its screenshot result; other blocks make no call and add nothing; a tool result in a response is an error |
| AgentProtocol.StepCalls | ui_act/src/agent.rs:146-189 | a completed `computer` block issues its action's calls, then exactly one screenshot and one width call |
| AgentProtocol.DispatchAnswers | ui_act/src/agent.rs:137-199 | after a successful response there is one result per `computer` tool use, in order and with its id, and exactly that many actions counted |
| AgentProtocol.DispatchIdle | ui_act/src/agent.rs:139-197 | a response without `computer` uses calls nothing, adds no result, and fails iff it holds a tool result |
| AgentProtocol.RoundRequest | ui_act/src/agent.rs:117-132 | every pass sends one request with the current screenshot size and messages; an HTTP or parse failure ends the run before any block is handled |
| AgentProtocol.RoundMessages | ui_act/src/agent.rs:202-242 | a pass adds the assistant message with the full response and then one user message answering it; a quitting pass adds the assistant message only; a failing pass adds it only when the terminal failed |
| AgentProtocol.RoundReadsLine | ui_act/src/agent.rs:206-213 | a line is read from the terminal exactly when the response was handled without error and held no `computer` tool use |
| AgentProtocol.RoundProtocol | ui_act/src/agent.rs:116-243 | each pass keeps the messages alternating from a user message, and a successful stop ends on an assistant message |
| AgentProtocol.RunFromConversation | ui_act/src/agent.rs:116-243 | the loop only extends the messages, keeps them alternating, and ends a successful run on an assistant message |
| AgentProtocol.RunFromRequests | ui_act/src/agent.rs:117-121 | every request holds a prefix of the final conversation of odd length, so it ends on a user message |
| AgentProtocol.RunProtocol | ui_act/src/agent.rs:100-246 | a failed first screenshot ends with no messages; otherwise the first message is the prompt with the screenshot, the first request declares its size, and the conversation alternates |
| SingleWindow.XConnection.constructor | ui_act/src/env/single_window.rs:20 | a connection with a fixed script of X replies and no requests logged |
| SingleWindow.XConnection.Request | ui_act/src/env/single_window.rs:37-38 | every X request is logged and answered from the script |
| SingleWindow.OnTopMessage | ui_act/src/env/single_window.rs:35-66 | the requests are two atom lookups, the send and a flush, stopping at the first failure; the message has format 32, the window, type `_NET_WM_STATE` and data `[action, ABOVE, 0, 1, 0]` with action 1 exactly when on top |
| SingleWindow.WindowName | ui_act/src/env/single_window.rs:68-99 | the property value when every lookup succeeds, and "Unknown window name" when any fails |
| SingleWindow.OriginAsU32 | ui_act/src/env/single_window.rs:117-131 | `geom.x as u32` keeps a non-negative origin and wraps a negative one by 2^32 |
| SingleWindow.AddU32 | ui_act/src/env/single_window.rs:131 | the sum is taken modulo 2^32, as a release build does |
| SingleWindow.MoveTarget | ui_act/src/env/single_window.rs:128-131 | a point is accepted iff it lies strictly inside the window's size, and otherwise the error reports point and size |
| SingleWindow.MoveTargetOffset | ui_act/src/env/single_window.rs:131 | an accepted point reaches the device as `(geom.x + x, geom.y + y)` |
| SingleWindow.WrapOffset | ui_act/src/env/single_window.rs:131 | the 32-bit wrap-around of a negative origin cancels in the device's `as i32` |
| SingleWindow.CropRect | ui_act/src/env/single_window.rs:117 | the crop has the window's size, and is exactly the window's rectangle when its origin is on screen |
| SingleWindow.SingleWindowEnvironment.constructor | ui_act/src/env/single_window.rs:23-28 | the environment keeps its connection, devices and window |
| SingleWindow.SingleWindowEnvironment.SetAlwaysOnTop | ui_act/src/env/single_window.rs:35-66 | the requests sent and the outcome are exactly those of the on-top message specification |
| SingleWindow.SingleWindowEnvironment.Drop | ui_act/src/env/single_window.rs:155-158 | dropping sends the requests that clear on-top, and ignores the result |
| SingleWindow.SingleWindowEnvironment.Name | ui_act/src/env/single_window.rs:93-99 | the name comes from the window name specification, with its fallback |
| SingleWindow.SingleWindowEnvironment.QueryGeometry | ui_act/src/env/single_window.rs:103 | the geometry request and its result follow the script |
| SingleWindow.SingleWindowEnvironment.Width | ui_act/src/env/single_window.rs:101-105 | one fresh geometry request; its width or its error |
| SingleWindow.SingleWindowEnvironment.Height | ui_act/src/env/single_window.rs:107-110 | one fresh geometry request; its height or its error |
| SingleWindow.SingleWindowEnvironment.Screenshot | ui_act/src/env/single_window.rs:112-123 | one fresh geometry request; the capture cropped to the window, or the first error |
| SingleWindow.SingleWindowEnvironment.MouseMove | ui_act/src/env/single_window.rs:125-132 | one fresh geometry request; a point outside the window (or a failed request) is an error with no device event; otherwise the device moves to the offset point |
| SingleWindow.SingleWindowEnvironment.LeftClick | ui_act/src/env/single_window.rs:134-136 | the mouse device performs a Left click |
| SingleWindow.SingleWindowEnvironment.RightClick | ui_act/src/env/single_window.rs:138-140 | the mouse device performs a Right click |
| SingleWindow.SingleWindowEnvironment.DoubleClick | ui_act/src/env/single_window.rs:142-144 | the mouse device performs a double click |
| SingleWindow.SingleWindowEnvironment.TypeText | ui_act/src/env/single_window.rs:146-148 | the keyboard device types the text |
| SingleWindow.SingleWindowEnvironment.PressKey | ui_act/src/env/single_window.rs:150-152 | a parse error leaves the keyboard untouched; otherwise it performs the chord |
| SingleWindow.Create | ui_act/src/env/single_window.rs:19-33 | creation sets on-top; if that fails, the dropped environment clears it again and the error is returned |
| PyText.Search | python/mpx.py:18-38 | `re.search` finds nothing iff no position matches, returns the groups of a matching position, and has as many groups as the pattern |
| PyText.SearchAt | python/mpx.py:18-38 | the search returns the match at the first matching position |
| PyText.DimensionsAfter | python/mpx.py:18 | text holding `dimensions:`, whitespace and `WxH` (and no earlier keyword) is matched with groups W and H |
| PyText.DeviceIdAfter | python/mpx.py:38 | text holding `id=N` (and no earlier `id=`) is matched with group N |
| PyText.DimensionsOfLine | python/mpx.py:18 | at the position of `dimensions:`, followed by whitespace and `WxH`, the pattern matches with groups W and H |
| PyText.NoMatchWithoutKeyword | python/mpx.py:18-38 | text without the pattern's literal keyword never matches |
| PyText.MatchNeedsKeyword | python/mpx.py:18-38 | every match starts with the pattern's literal keyword |
| PyMpx.Emit | python/mpx.py:290 | one evdev write: trace and result follow the device's oracle |
| PyMpx.EmitSynced | python/mpx.py:290-292 | a write and then `syn()`, the sync only if the write succeeded |
| PyMpx.ScreenResolution | python/mpx.py:14-26 | a result iff the output has a `dimensions:` match, and then exactly its two groups; no match and a `SubprocessError` both raise "Could not detect screen resolution"; any other error passes through |
| PyMpx.ResolutionIgnoresStatus | python/mpx.py:17-18 | the exit status of `xdpyinfo` plays no part |
| PyMpx.ResolutionOfDimensionsLine | python/mpx.py:14-22 | an output with a dimensions line yields exactly its width and height |
| PyMpx.ResolutionNeedsKeyword | python/mpx.py:23-24 | an output without `dimensions:` raises the resolution error |
| PyMpx.DeviceIdIn | python/mpx.py:36-42 | None iff no line names the device and carries `id=N`; otherwise N from the first such line |
| PyMpx.DeviceIdResult | python/mpx.py:29-42 | a non-zero `xinput` status raises "Failed to run xinput"; otherwise the line scan of the output |
| PyMpx.GetDeviceId | python/mpx.py:29-42 | the method computes `DeviceIdResult`: a non-zero `xinput` status raises "Failed to run xinput", an error starting it passes through, and otherwise the line scan decides |
| PyMpx.ScanLines | python/mpx.py:35-41 | the loop over the lines, with its early return, gives the id of the first line that names the device and holds `id=N`, and None when there is none |
| PyMpx.ExactMatchesFirstField | python/mpx.py:37 | in exact mode a line names the device iff its first tab-separated field contains the name |
| PyMpx.DeviceIdFromListing | python/mpx.py:35-40 | after lines that do not qualify, a line naming the device with `id=N` yields N |
| PyMpx.LineWithoutIdSkipped | python/mpx.py:38-40 | a line without `id=` is skipped even when it names the device |
| PyMpx.FirstIdLine | python/mpx.py:36-40 | the id comes from the first qualifying line |
| PyMpx.NoIdLine | python/mpx.py:36-42 | when no line qualifies the result is None |
| PyMpx.MappedNamePressed | python/mpx.py:328-388 | a name in `key_mapping`, in any case, presses its mapped key |
| PyMpx.SingleCharacterPressed | python/mpx.py:357-381 | a one-character name is looked up in its lowercase; a capital letter presses its letter key |
| PyMpx.FunctionKeyPressed | python/mpx.py:391-395 | `f1`…`f12`, in either case, press F1…F12 |
| PyMpx.FunctionKeyLeadingZero | python/mpx.py:391-392 | `f01`…`f09` pass the range check but name no attribute, so `getattr` raises |
| PyMpx.FunctionKeyOutOfRange | python/mpx.py:391-398 | `f0` and `f13` and above are unhandled |
| PyMpx.LoneSpaceUnhandled | python/mpx.py:357-398 | a single space is unhandled, unlike the Rust table where `" "` names Space |
| PyMpx.PressKeys | python/mpx.py:353-398 | the press loop writes, collects and reports exactly what the press-phase specification says |
| PyMpx.PressName | python/mpx.py:354-398 | one name: pressed, skipped with a warning, or raising, as its choice says |
| PyMpx.ReleaseReversed | python/mpx.py:403-408 | the `finally` releases the collected keys in reverse order |
| PyMpx.KeypressFaultFree | python/mpx.py:349-408 | without device errors, keypress is the Rust chord of the recognised keys: downs in order, ups in reverse |
| PyMpx.PressPhaseShape | python/mpx.py:349-398 | the keys pressed are a prefix of the recognised keys; the trace holds exactly their downs |
| PyMpx.KeypressReleasesPressed | python/mpx.py:403-408 | whatever stopped the press loop, exactly the pressed keys are released, in reverse order |
| PyMpx.UnhandledNameIgnored | python/mpx.py:397-398 | an unrecognised name is never pressed or released and changes nothing |
| PyMpx.RaisingNameStops | python/mpx.py:359-392 | a name whose lookup raises stops the press loop with the keys pressed so far |
| PyMpx.KeyPlanGrows | python/mpx.py:353-398 | the keys recognised in a prefix of the names are a prefix of those of all the names, and a raise in the prefix stops the whole plan there |
| PyMpx.TypedKey | python/mpx.py:429-439 | for ASCII, a character has a key iff it is a letter, a digit, space, newline, tab or dot |
| PyMpx.CharAgreesWithRust | python/mpx.py:420-449 | for letters, digits, space, newline and dot each character is typed as by the Rust `type_text` |
| PyMpx.TextAgreesWithRust | python/mpx.py:420-449 | texts of such characters are typed exactly as by the Rust `type_text` |
| PyMpx.TypedDifferently | python/mpx.py:429-442 | tab is typed by Python but not by Rust; `:;-_,/?` are typed by Rust but not by Python |
| PyMpx.UppercaseWithoutKey | python/mpx.py:423-447 | an uppercase character without a key still gets its shift down and up |
| PyMpx.UnhandledCharacterSkipped | python/mpx.py:441-442 | an unhandled non-uppercase character emits nothing |
| PyMpx.Tap | python/mpx.py:314-320 | `_keypress` writes down, sync, up, sync |
| PyMpx.TypeChar | python/mpx.py:422-449 | one character: shift down if uppercase, its key tapped, shift up if uppercase |
| PyMpx.TypeText | python/mpx.py:420-449 | the loop types exactly the concatenation of every character's writes |
| PyMpx.IntendedWheelIsRustScroll | python/mpx.py:451-476 | the docstring's scroll amounts give exactly the Rust `scroll` events of the same direction |
| PyMpx.WheelAsWrittenSwapsRightAndLeft | python/mpx.py:464-466 | as written, scrolling right gives the Rust events for left and the other way round |
| PyMpx.MouseAxesSpanScreen | python/mpx.py:220-223 | a point lies within the pointer axes iff it lies on the screen |
| PyMpx.WindowInfoOf | python/mpx.py:146-172 | an X error raises "Could not get window information…"; a result carries the window's own size |
| PyMpx.GetWindowInfo | python/mpx.py:146-172 | the loop up the window tree computes `WindowInfoOf` |
| PyMpx.WindowOriginIsSum | python/mpx.py:155-163 | the absolute origin is the window's offset plus the offsets of all its ancestors below the root |
| PyMpx.ClimbSums | python/mpx.py:159-163 | the climb from any level adds exactly the offsets of the ancestors above that level |
| PyMpx.RootNeverReached | python/mpx.py:159 | a chain of parents that never reaches the root yields no window information |
| PyMpx.OnTopTakesEffect | python/mpx.py:175-210 | after the client message the window's on-top state is the requested one |
| PyMpx.OnTopOfOtherWindow | python/mpx.py:194-209 | a message for another window leaves this window's on-top state alone |
| PyMpx.OnTopMessageAsInRust | python/mpx.py:194-209 | the send and sync are the same requests as the Rust `set_always_on_top` sends |
| PyMpx.PyDisplay.constructor | python/mpx.py:182 | a display with known atoms and nothing sent |
| PyMpx.PyDisplay.SetWindowAlwaysOnTop | python/mpx.py:175-210 | the requests sent are exactly the on-top message for the window |
| PyMpx.SessionRestoresOnTop | python/mpx.py:505-524 | entering and leaving a window session restores the window's on-top state, whatever it was |
| PyMpx.FailedEnterLeavesOnTop | python/mpx.py:513-516 | if the parent `__enter__` raises after on-top is set, the window stays on top |
| PyMpx.EnterWith | python/mpx.py:217-272 | `__enter__` succeeds iff every step succeeds; it runs `create-master CoX` only after both devices were found, then the two reattaches; each failure raises its own message |
| PyMpx.AttachWith | python/mpx.py:257-272 | after the master was created, `__enter__` succeeds iff both master devices are found and both reattaches succeed, and then it has run the creation and the two reattaches, in that order |
| PyMpx.NoMasterWithoutDevices | python/mpx.py:229-251 | if either virtual device is not listed, no `xinput` command runs and `__enter__` fails |
| PyMpx.MissingMasterPassedAsNone | python/mpx.py:257-261 | a master pointer that is not found is passed to `reattach` as the word `None` |
| PyMpx.ExitRemovesAttachedMaster | python/mpx.py:257-284 | after a successful `__enter__`, `__exit__` removes the master whose pointer id the virtual mouse was reattached to |
| PyMpx.MPXEnvironment.MoveTo | python/mpx.py:526-531 | writes X, Y, sync at the window-relative point plus the window origin captured at construction |
| PyMpx.MPXEnvironment.ButtonClick | python/mpx.py:295-307 | writes down, sync, up, sync of the button |
| PyMpx.MPXEnvironment.LeftClick | python/mpx.py:295-300 | a Left click |
| PyMpx.MPXEnvironment.RightClick | python/mpx.py:302-307 | a Right click |
| PyMpx.MPXEnvironment.DoubleClick | python/mpx.py:309-312 | two Left clicks |
| PyMpx.MPXEnvironment.Click | python/mpx.py:410-418 | `left` and `right` move and then click; any other button raises ValueError with no event |
| PyMpx.MPXEnvironment.Scroll | python/mpx.py:451-476 | move first, then the horizontal wheel `-scroll_x` only if `scroll_x` is non-zero, then the vertical wheel `-scroll_y` only if `scroll_y` is non-zero, stopping at the first write that raises |
| PyMpx.MPXEnvironment.Keypress | python/mpx.py:322-408 | the writes and result are exactly the keypress specification, press phase then reverse release |
| PyMpx.MPXEnvironment.Type | python/mpx.py:420-449 | the writes are exactly the Python typing program |
| PyMpx.MPXEnvironment.Enter | python/mpx.py:505-516 | a window session records whether the window was already above and sets on-top; the result, the attached seat and the `xinput` commands logged are those of the `__enter__` specification |
| PyMpx.MPXEnvironment.RaiseWindow | python/mpx.py:507-513 | records the prior state and sends the on-top message |
| PyMpx.MPXEnvironment.ParentEnter | python/mpx.py:217-272 | the seat is attached exactly when setup succeeds, and the `xinput` commands setup ran are appended to the environment's log |
| PyMpx.MPXEnvironment.Exit | python/mpx.py:274-286 | both devices are closed once, then `xinput remove-master` is run on the master pointer `__enter__` looked up (the word `None` when it was not found), and a non-zero exit code raises; a window environment first clears on-top only if the window was not above before (python/mpx.py:518-524) |
| PyMpx.MPXEnvironment.Screenshot | python/mpx.py:534-548 | fresh window information; the crop box is its origin and size, or its error |
| PyMpx.MPXEnvironment.constructor | python/mpx.py:214-215 | a new environment keeps its devices, display, window and size, is not attached, has run no `xinput` command and has recorded no prior on-top state |
| PyMpx.NewMPXEnvironment | python/mpx.py:213-215 | the size is the screen resolution, or its error |
| PyMpx.NewWindowMPXEnvironment | python/mpx.py:495-503 | the size is the window's size; its origin is captured once for `move_to` |
| PyMpx.WindowPointOnScreen | python/mpx.py:526-531 | a point inside the window lands inside the window's rectangle on screen |
| PyAgent.Field | agent.py:29-54 | a lookup succeeds iff the key is present, and a missing key raises KeyError |
| PyAgent.FieldOr | agent.py:47 | `get` gives the value when present and the default otherwise |
| PyAgent.MessageText | agent.py:29-30 | a message is printed only when its `content` field is a list |
| PyAgent.ActionArgsDropType | agent.py:35 | the arguments are every field of the action except `type`, with the same values |
| PyAgent.ClampBounds | agent.py:39-40 | `max(min(v, 5), -5)` lies in [-5, 5], keeps values already inside and takes the nearest bound otherwise |
| PyAgent.ClampValue | agent.py:39-40 | numbers are clamped and booleans pass through; any other value raises TypeError |
| PyAgent.DispatchedArgsClamp | agent.py:38-40 | other actions pass their arguments unchanged; a scroll without `scroll_x` raises; a scroll clamps both amounts and keeps everything else |
| PyAgent.ScrollAmountsBounded | agent.py:38-43 | every numeric scroll amount dispatched lies in [-5, 5] |
| PyAgent.Computer.constructor | agent.py:79 | a computer with scripted action and screenshot results and no calls |
| PyAgent.Computer.Perform | agent.py:43 | the call is logged and answered from the script |
| PyAgent.Computer.Screenshot | agent.py:45 | the screenshot is logged and answered from the script |
| PyAgent.OnlyComputerCallsAct | agent.py:29-64 | an item that is not a `computer_call` makes no call on the computer and returns `[]` |
| PyAgent.ComputerCallReply | agent.py:32-62 | a handled `computer_call` makes one action call with the filtered, clamped arguments, then one screenshot, and returns one `computer_call_output` with the item's `call_id`, the acknowledged checks (default `[]`) and the screenshot URL |
| PyAgent.ImageUrlHasPrefix | agent.py:58 | the image URL is `data:image/png;base64,` followed by the screenshot |
| PyAgent.HandleItem | agent.py:26-64 | the computer calls and the result are exactly the `handle_item` specification |
| PyAgent.ClampInPlace | agent.py:38-40 | clamping the dict in place computes the specified scroll arguments |
| PyAgent.ItemAnswersCall | agent.py:51-62 | every output of an item is a `computer_call_output` answering that item's call |
| PyAgent.HandlersAnswerCalls | agent.py:112-113 | every output added by the handler loop answers a call among the model's items |
| PyAgent.HandleOutputs | agent.py:112-113 | the loop over the output items computes the handler specification, stopping at the first raise |
| PyAgent.HandleOne | agent.py:113 | one item, handled as `handle_item` specifies |
| PyAgent.HandleAllStep | agent.py:112-113 | handling the first i+1 items is handling the first i and then item i, unless one of them raised |
| PyAgent.HandleAllStays | agent.py:112-113 | once an item raises, no later item is handled |
| PyAgent.ModelServer.constructor | agent.py:6-22 | a model with scripted replies and no requests |
| PyAgent.ModelServer.CreateResponse | agent.py:99-104 | every request is logged with the items so far and answered from the script |
| PyAgent.ExchangeRun | agent.py:99-113 | no `output` raises "No output from model"; otherwise the items, then the model's output, then the handler outputs, in that order |
| PyAgent.LastIsAssistant | agent.py:115 | the inner loop ends iff the last item has role `assistant` |
| PyAgent.Exchange | agent.py:99-113 | one request and its handling are exactly the exchange specification |
| PyAgent.Converse | agent.py:93-116 | when the inputs run out there are at least as many items as inputs, and every request sent holds a prefix of the final items |
| MpxDemo.ScreenResolution | mpx.py:7-16 | as written, any failure of the subprocess passes through unchanged; a completed run is parsed as in `python/mpx.py` |
| MpxDemo.SubprocessErrorEscapes | mpx.py:7-16 | the script's parse differs from the wrapping one exactly on a `SubprocessError`, which escapes unwrapped |
| MpxDemo.SampleDimensions | test_mpx.py:6-16 | `"dimensions:    1920x1080"` gives (1920, 1080) |
| MpxDemo.SampleInvalidOutput | test_mpx.py:18-28 | `"invalid output"` raises "Could not detect screen resolution" |
| MpxDemo.CapabilitiesSpanScreen | mpx.py:22-28 | the capabilities give X then Y, from 0 to width-1 and height-1, and include BTN_LEFT |
| MpxDemo.PositionsOnScreen | mpx.py:32 | all four positions lie within the axes iff the screen is at least 200 by 200 |
| MpxDemo.TourAppend | mpx.py:35-38 | touring `a + b` is touring `a` and then `b` |
| MpxDemo.TourVisitsInOrder | mpx.py:35-38 | the tour writes X, Y, sync for each position, in the order given |
| MpxDemo.TourSplit | mpx.py:35-38 | touring is touring the positions before i, then position i, then the rest |
| MpxDemo.Interrupted | mpx.py:41-42 | exactly a KeyboardInterrupt is swallowed; every other error propagates |
| MpxDemo.MoveOnce | mpx.py:36-38 | one step writes X, Y, sync |
| MpxDemo.TourDevice | mpx.py:35-40 | the loop writes exactly the tour, stopping at the first raise |
| MpxDemo.DemoMain | mpx.py:18-45 | the resolution comes from the script's own parse, so a `SubprocessError` escapes; a resolution error raises before any device exists; otherwise the requested capabilities span the screen, a failed creation raises, and a created device gets the tour and is closed exactly once on every path, after which only a KeyboardInterrupt is swallowed |

## Left out

- Device creation is left out: the uinput builders (`MouseDevice::create`, `KeyboardDevice::create`, `UInput(...)`) and `MPXInput` setup cannot be verified. A device is a parameter; only its identity is kept.
- Subprocesses (`xinput`, `xdpyinfo`, `Command::output`), X11 requests and replies, and the screen capture are foreign calls. Their results are scripted parameters; the parsing of their output is modelled.
- Reading the `_NET_WM_STATE` property (python/mpx.py:509) is an input to `PyMpx.MPXEnvironment.Enter`, not a logged request.
- The sleeps (`SYNC_DELAY`, `CLICK_DELAY`, `MULTI_CLICK_DELAY`, `KEY_PRESS_DELAY`, the one-second pause after a tool, `time.sleep`) are not modelled. A KeyboardInterrupt during a sleep is not modelled either; the demo's interrupt is modelled as a failed device write.
- Floating point is not modelled: `img_shrink`, the scale `screenshot.width() / env.width()` and the `round()` of coordinates are an uninterpreted translation function and an opaque scale.
- HTTP, JSON serialisation, PNG and base64 encoding are not modelled. A model reply, a JSON value and a base64 screenshot are values given to the model. JSON floats are left out, and so is an `output` that is not a list.
- The Ctrl-C race in `main.rs`, async standard input and telemetry are not modelled. Running out of scripted replies or lines stands for cancellation.
- Unicode case is partly an oracle. Rust `to_lowercase` on key names is modelled for ASCII and for the Kelvin sign, the only non-ASCII character whose lowercase is ASCII. `is_uppercase` and Python `isupper` beyond ASCII are a parameter.
- The GNOME launcher, `select_window`, `get_visible_windows` and the printing are not part of this model.
- `agent.py` imports `WindowMPXEnvironment` from `mpx`, which the root `mpx.py` does not define. The model binds `handle_item` to an abstract computer (scripted action and screenshot results) rather than to `python/mpx.py`.
- `getattr(computer, action_type)(**action_args)` dispatches by name to a Python method. The model logs the action name and arguments and does not resolve them to a method.
- Device.WrapI32: models the release-build wrap-around of `amount as i32 * multiplier`. A debug build would panic on overflow instead.
- Agent.Round: its own contract states only the request count. Its message, result and termination properties are proved separately in `AgentProtocol`.
- Agent.Agent.Run: does not model the telemetry sent at the end of a session.
- PyAgent.Converse: states only how the item list grows and what each request holds. `input()` is an oracle, and the loop has no exit in the source, so it ends only when the scripted inputs or replies run out.
- PyMpx.MPXEnvironment.Exit: the 0.1 s pause and the printing are left out. The device closes are counters. It requires a successful `__enter__`, which the `with` statement guarantees; a direct call after a failed or missing `__enter__` (where `master_mouse_id` may be unset) is not modelled. The exit code of `remove-master` is a parameter.
- PyText.Search: `\d` is modelled as the ASCII digits 0-9. In a Python `str` pattern `\d` also matches every other Unicode decimal digit (category Nd), and `int()` reads those, so `dimensions:` or `id=` followed by, say, Arabic-Indic digits matches in Python and not in the model. `xdpyinfo` and `xinput` print ASCII digits.
- PyText.SearchAt: the match at one position uses the same ASCII-only `\d` as `PyText.Search`.
- SingleWindow.AddU32: models the release-build wrap-around of `geom.x as u32 + x` (single_window.rs:131). A debug build panics when that sum overflows, as it does for every negative origin with a large enough offset (`geom.x = -10`, `x = 20`); the model then moves to the wrapped point.
- SingleWindow.MoveTargetOffset: the offset point it proves rests on the release-build wrap of `SingleWindow.AddU32`; in a debug build the same inputs panic.
- SingleWindow.WrapOffset: the cancelling wrap holds only in a release build; in a debug build the overflowing sum panics.
- The Rust and Python key tables differ: Python has no aliases, and `space` versus `" "` differ. These differences are stated as lemmas (`PyMpx.LoneSpaceUnhandled`, `PyMpx.TypedDifferently`) rather than reconciled.

## Findings

| source | as written | input that shows it | evidently intended | confidence | as-written member | corrected member |
|---|---|---|---|---|---|---|
| python/mpx.py:451-466 | `scroll` writes `REL_HWHEEL = -scroll_x`, although its docstring says a positive `scroll_x` scrolls right, and a positive `REL_HWHEEL` turns the wheel right | `scroll(x, y, 3, 0)` writes `REL_HWHEEL = -3`, a scroll to the left | write `REL_HWHEEL = scroll_x` (the vertical inversion is right, since a positive `REL_WHEEL` scrolls up) | not executed | PyMpx.WheelAsWrittenSwapsRightAndLeft | PyMpx.IntendedWheelIsRustScroll |
| mpx.py:7-16 | `get_screen_resolution` does not catch `SubprocessError`, while test_mpx.py:30-37 expects the resolution error, as `python/mpx.py:25-26` raises it | `subprocess.run` raising `SubprocessError("Command failed")` | re-raise it as RuntimeError("Could not detect screen resolution") | not executed | MpxDemo.SubprocessErrorEscapes | PyMpx.ScreenResolution |

The operations that carry these two lines keep the code as written: `PyMpx.MPXEnvironment.Scroll` writes `-scroll_x`, and `MpxDemo.DemoMain` uses the script's own `MpxDemo.ScreenResolution`. The corrected definitions stand beside them with their intended properties proved.
