# Lab instruments console: a verified model

This project models the core of a Python console for bench instruments. The console is a `cmd.Cmd` shell that finds SCPI instruments on the VISA bus, names them, and routes typed commands to them. The model covers:

- **Script expansion.** `set`, `call`, `repeat … end`, `for … end`, comments and `${name}` substitution. There are two versions: the current one in `lab_instruments/repl.py` and the legacy one in `repl.py`.
- **Expression evaluation.** The restricted `_safe_eval` evaluator used by `set` and `calc`.
- **Command routing.**
  - `onecmd` with its `repeat`, `repeatall` and `;` forms;
  - the per-channel `all` fan-out;
  - device-type resolution;
  - the state sweeps (`all safe|off|on|reset`, cleanup on exit).
- **Shell state.** Scan, use, close, the measurement log, `calc`, and the DMM text loop.
- **Drivers.** Five instrument drivers, each with the exact SCPI commands it writes, plus the VISA discovery scan:
  - the BK Precision 4063 generator;
  - the Keysight EDU33212A generator;
  - the Matrix MPS-6010H supply;
  - the HP 34401A meter;
  - the HP E3631A supply;
  - the VISA discovery scan.

## Module layout

Modules follow the program's structure:

- **Shared layers.**
  - `Scpi`: the device connection, as a `Link` class whose `sent` log records each write.
  - `Text` and `Sorting`: string and sorting helpers.
  - `Env`: the ordered variable dictionary and `${name}` substitution.
  - `SafeEval`: the evaluator.
- **Script expansion.**
  - `Expander` and `ExpanderProps`: the current expander.
  - `LegacyExpander` and `LegacyProps`: the legacy expander.
- **Routing and state sweeps.**
  - `Registry`: device names and type resolution.
  - `Router`, `RouterProps` and `Console`: `onecmd`.
  - `Controller`: the state sweeps.
- **Shell state.**
  - `Session`: the measurement log, `calc`, the text frames and the legacy interactive resolution.
  - `Shell`: the `InstrumentShell` class.
- **Drivers:** `Bk4063`, `Keysight`, `Matrix`, `Hp34401a`, `Hpe3631a` and `Discovery`.

## How the model is built

**Drivers.** Each driver is a class over a `Scpi.Link`. Each of its methods is proved to perform a pure *plan*: either the list of commands it writes, or a rejection of its arguments. Lemmas state what each plan contains.

**Loops.** Loops in the source are `while` loops in methods proved equal to recursive specification functions:

- the expanders' line walk;
- `repeat` copies and `for` passes;
- the `;` chunks;
- the sweeps over the registry;
- the discovery scan;
- the rolling display.

Lemmas then state what those functions mean.

**Shell state.** The shell's state lives in `InstrumentShell` fields. Each command method states its whole new state.

**Both scripting dialects** are modelled. `Dialect` selects between the current and the legacy routing where the two files share a shape.

## Model

| member | source | states |
|---|---|---|
| Scpi.Link.constructor | lab_instruments/src/device_manager.py:9-12 | a new connection is closed and has written nothing |
| Scpi.Link.Open | lab_instruments/src/device_manager.py:14-23 | connecting opens the link and writes nothing |
| Scpi.Link.Close | lab_instruments/src/device_manager.py:25-30 | disconnecting closes the link and writes nothing |
| Scpi.Link.Send | lab_instruments/src/device_manager.py:32-38 | a connected link appends exactly the command; a closed one writes nothing and reports not-connected (the ConnectionError) |
| Scpi.Link.SendAll | lab_instruments/src/device_manager.py:32-38 | a run of sends appends all commands in order when connected, none when closed |
| Scpi.Link.Perform | lab_instruments/src/device_manager.py:32-38 | a plan's commands are written iff it is accepted and the link is open; a rejected plan writes nothing and reports invalid argument |
| Scpi.Link.Query | lab_instruments/src/device_manager.py:40-46 | a query writes the command when connected and returns the stripped reply; when closed it reports not-connected |
| Scpi.Render | lab_instruments/src/device_manager.py:32-38 | a command is its header, or header, blank and arguments |
| Scpi.RenderAll | lab_instruments/src/device_manager.py:32-38 | rendering a list renders each command in place |
| Scpi.StatusOf | lab_instruments/src/device_manager.py:32-38 | a plan succeeds iff it is accepted and the link is open (or it has nothing to send); invalid iff rejected |
| Scpi.Written | lab_instruments/src/device_manager.py:32-38 | what reaches the instrument: nothing for a rejected plan or a closed link, else every command rendered |
| Scpi.OnOff | lab_instruments/src/bk_4063.py:57 | the state word is "ON" exactly when the flag is set |
| Text.Strip | lab_instruments/src/device_manager.py:44 | the result neither starts nor ends with whitespace and is no longer than the input |
| Text.StripRemovesSpace | lab_instruments/src/device_manager.py:44 | the result is a contiguous slice of the input with only whitespace before and after it, so `strip()` removes exactly the leading and trailing whitespace |
| Text.Words | lab_instruments/repl.py:217-222 | every token is a non-empty run of non-blank characters |
| Text.WordsJoin | lab_instruments/repl.py:217-222 | splitting words joined by blanks gives back exactly those words, in order |
| Text.Upper | lab_instruments/src/keysight_edu33212a.py:120 | upper-casing keeps the length and maps each character |
| Text.ParseInt | lab_instruments/repl.py:507-511 | `int()` succeeds exactly on an optionally signed run of decimal digits |
| Text.NatToStringDigits | lab_instruments/repl.py:461 | `str(n)` of a natural is all digits and reads back as n |
| Text.SplitOn | lab_instruments/repl.py:552-555 | `split(",")` gives at least one part and no part contains the separator |
| Text.SplitJoin | lab_instruments/repl.py:552-555 | splitting a separator-joined list gives the list back |
| Text.SplitOnce | lab_instruments/repl.py:2525-2563 | `split("=", 1)`: the head has no separator and head, separator and tail rebuild the token |
| Text.Take | lab_instruments/src/hp_34401a.py:407-416 | a prefix slice has length min(n, len) (0 for n <= 0) and is a prefix of the input |
| Text.ReplaceAllNoPlaceholder | lab_instruments/repl.py:458-462 | replacing a `${…}` pattern leaves text without `${` unchanged |
| Sorting.Sort | lab_instruments/repl.py:224-227 | `sorted` returns a permutation of its input in non-decreasing order |
| Env.Get | lab_instruments/repl.py:458-462 | a variable lookup fails exactly for unbound names |
| Env.Put | lab_instruments/repl.py:479-493 | binding k gives k the new value, leaves every other name unchanged, and appends k to the key order only if it was new |
| Env.PutAll | lab_instruments/repl.py:559-561 | binding several names leaves every name outside the list unchanged |
| Env.PutAllBinds | lab_instruments/repl.py:559-561 | each key is bound to the value `zip` pairs with its last occurrence |
| Env.Placeholder | lab_instruments/repl.py:461 | `${name}` is `$`, `{`, the name and `}` |
| Env.SubstNoPlaceholder | lab_instruments/repl.py:458-462 | substitution leaves text with no `${` unchanged |
| Env.ReplaceOther | lab_instruments/repl.py:458-462 | replacing `${j}` never touches a different placeholder `${k}` |
| Env.SubstBound | lab_instruments/repl.py:458-462 | `${k}`, with k bound to a placeholder-free value v, substitutes to exactly v |
| SafeEval.FlooredMod | lab_instruments/repl.py:426-427 | Python's `%` takes the sign of the divisor: in [0, y) for y > 0 and (y, 0] for y < 0 |
| SafeEval.RoundHalfEven | lab_instruments/repl.py:398 | `round` picks an integer within 0.5, and the even one on a tie |
| SafeEval.Extreme | lab_instruments/repl.py:398 | a successful `min`/`max` returns one of its numeric arguments and bounds all of them |
| SafeEval.EvalArgs | lab_instruments/repl.py:447-452 | successful argument evaluation yields one value per argument |
| SafeEval.EvalOkAdmissible | lab_instruments/repl.py:397-456 | an expression evaluates only if it uses numeric constants, known names, allowed operators, subscripts whose base evaluates to a dict, and calls whose callee evaluates to one of the four allowed functions; everything else raises |
| SafeEval.NumericTableResult | lab_instruments/repl.py:397-456 | over a table of numbers the result is a number or one of the allowed functions |
| SafeEval.MinIsLeast | lab_instruments/repl.py:398 | `min` of two or more numbers succeeds, returns one of them and is at most each |
| SafeEval.ExtremeOk | lab_instruments/repl.py:398 | `min`/`max` over numbers never fails |
| Expander.NumericVars | lab_instruments/repl.py:484-487 | the names visible to `set` are variables whose text parses as a number |
| Expander.NonEmpty | lab_instruments/repl.py:553 | the `for a,b` key list drops empty names |
| Expander.CollectBlock | lab_instruments/repl.py:512-528 | the collected block ends at or before the script end, after the start, and is no longer than the lines it consumed |
| Expander.Step | lab_instruments/repl.py:470-571 | one directive always consumes at least one line and never runs past the end |
| Expander.SubstAll | lab_instruments/repl.py:560-561 | each `for` part is substituted in place |
| Expander.CollectBlockLoop | lab_instruments/repl.py:512-528 | the nesting-counting loop collects exactly the block and resume index that CollectBlock specifies |
| Expander.CollectLine | lab_instruments/repl.py:514-528 | one collected line either closes the block at depth zero or keeps the open count positive and extends the block |
| Expander.ExpandScriptLines | lab_instruments/repl.py:464-572 | the expander's loop returns exactly the specified expansion, including the empty result beyond depth 10 |
| Expander.ExpandLine | lab_instruments/repl.py:470-571 | one pass of the loop body emits, advances and rebinds exactly as Step specifies |
| Expander.RepeatLoop | lab_instruments/repl.py:529-530 | `repeat n` emits n copies of the expanded block (none for n <= 0) |
| Expander.ForSingleLoop | lab_instruments/repl.py:563-567 | `for k v1 v2 …` emits the block expanded once per value, in order |
| Expander.ForMultiLoop | lab_instruments/repl.py:552-562 | `for a,b …` emits one pass per matching value list and stops at the first mismatch |
| ExpanderProps.Emitted | lab_instruments/repl.py:471-474 | emitted plain lines are never more than the input |
| ExpanderProps.PlainScript | lab_instruments/repl.py:470-572 | a script of plain lines expands to its stripped non-comment lines, or nothing beyond the depth limit |
| ExpanderProps.EmittedPlain | lab_instruments/repl.py:471-474 | expanding is idempotent on plain scripts: emitted lines stay plain, and emitting again changes nothing |
| ExpanderProps.CollectPlainBlock | lab_instruments/repl.py:512-528 | a plain body up to `end` is collected as its emitted lines, resuming after `end` |
| ExpanderProps.RepeatPlainBlock | lab_instruments/repl.py:506-531 | `repeat n` over a plain body emits n copies of the body and resumes after `end` |
| ExpanderProps.StepRepeat | lab_instruments/repl.py:506-531 | an integer count copies the collected block's expansion that many times and resumes after it |
| ExpanderProps.StepRepeatSkips | lab_instruments/repl.py:507-511 | a count that is not an integer skips only the `repeat` line, emitting nothing and keeping the variables |
| ExpanderProps.StepSet | lab_instruments/repl.py:479-493 | `set k …` binds k to the evaluated number's text when the substituted text evaluates, else to the substituted text; nothing is emitted and other names are untouched |
| ExpanderProps.StepCallUnknown | lab_instruments/repl.py:494-505 | calling an unknown script emits nothing and leaves the variables unchanged |
| ExpanderProps.StepCall | lab_instruments/repl.py:494-505 | a known script expands at depth+1 over the variables overlaid with the `k=v` parameters (other tokens are ignored); the caller's variables are unchanged |
| ExpanderProps.IntToStringParses | lab_instruments/repl.py:507-511 | every integer's text parses back to it |
| ExpanderProps.ForSingleAppend | lab_instruments/repl.py:563-567 | a single-key `for` over two value lists is the concatenation of the two |
| ExpanderProps.ForSingleOne | lab_instruments/repl.py:563-567 | one value expands the block once with the key bound to the substituted value |
| ExpanderProps.ForMultiStops | lab_instruments/repl.py:554-558 | the first value whose part count differs from the keys ends the loop; later values are ignored |
| ExpanderProps.ForMultiAllMatch | lab_instruments/repl.py:552-562 | when every value matches, the output is the concatenation of each value's pass, each over its own part bindings |
| ExpanderProps.SelfCallBounded | lab_instruments/repl.py:465-467 | a script that calls itself stops at depth 10: its line is emitted once per level |
| LegacyExpander.Then | repl.py:452-530 | an exception in either part aborts the whole expansion |
| LegacyExpander.Step | repl.py:452-530 | a legacy directive that does not raise consumes at least one line |
| LegacyExpander.Repeated | repl.py:469-490 | copies of a block raise iff the block raises, and otherwise have count times its lines |
| LegacyExpander.ExpandScriptLines | repl.py:452-530 | the legacy loop returns exactly the specified expansion, or the raise |
| LegacyExpander.ExpandLine | repl.py:458-529 | one legacy loop pass equals Step |
| LegacyExpander.RepeatLoop | repl.py:469-490 | `repeat n` copies the block's expansion n times |
| LegacyExpander.ForSingleLoop | repl.py:491-526 | the legacy single-key `for` equals its specification |
| LegacyExpander.ForMultiLoop | repl.py:491-526 | the legacy multi-key `for` equals its specification, raising on a mismatch |
| LegacyProps.PlainStep | repl.py:529 | a legacy plain line emits its stripped text unless it is blank or a comment |
| LegacyProps.PlainScript | repl.py:452-530 | a legacy plain script expands to its stripped non-comment lines |
| LegacyProps.SetBindsText | repl.py:464-468 | legacy `set` binds the substituted text, never a computed value |
| LegacyProps.CallIsCommand | repl.py:452-530 | the legacy expander has no `call` directive: the line is emitted as a command |
| LegacyProps.RepeatBadCountRaises | repl.py:470 | a non-integer `repeat` count raises |
| LegacyProps.RaiseAborts | repl.py:452-530 | a raising line after plain lines aborts the whole expansion |
| LegacyProps.ForMultiMismatchRaises | repl.py:516 | any mismatching value list makes the legacy `for` raise |
| LegacyProps.RepeatPlain | repl.py:469-490 | legacy `repeat n` over a plain body gives n copies of its lines |
| Registry.Names | lab_instruments/repl.py:92-129 | the device names, in registration order |
| Registry.Lookup | lab_instruments/repl.py:162-178 | a lookup fails exactly for unknown names and otherwise returns a registered device |
| Registry.StripDigits | lab_instruments/repl.py:180-215 | the base type is the name without its trailing digits |
| Registry.MatchesOwnBase | lab_instruments/repl.py:180-215 | a device name always matches its own base type |
| Registry.Candidates | lab_instruments/repl.py:180-215 | the candidates are the registered names of the type, plus `dds` for `awg` |
| Registry.ResolveDeviceType | lab_instruments/repl.py:180-215 | a registered override wins; otherwise a type resolves iff it has exactly one candidate, and the result is always registered |
| Registry.ResolveUnique | lab_instruments/repl.py:180-215 | with unique names, a type resolves to n iff n is its only candidate |
| Registry.CandidatesUnique | lab_instruments/repl.py:180-215 | candidates never repeat |
| Registry.ChannelMapSorted | lab_instruments/repl.py:224-227 | a string-keyed channel map yields its keys sorted, as a permutation |
| Registry.IntChannelMapSorted | lab_instruments/repl.py:224-227 | an integer-keyed channel map yields its keys sorted, as a permutation, in text form |
| Registry.ScopeChannels | lab_instruments/repl.py:228-229 | a scope without a map has channels 1..n, with 4 as the default |
| Registry.FanOutDevice | lab_instruments/repl.py:598-627 | the fan-out target is a registered device |
| Registry.FirstMatching | lab_instruments/repl.py:611-615 | the first registered device whose name is the base type followed by digits only, if any |
| Registry.Range | lab_instruments/repl.py:229 | `range(lo, hi)` in order |
| Router.Scan | lab_instruments/repl.py:631-685 | the line tokens are non-empty, with `;` as its own token |
| Router.ScanJoin | lab_instruments/repl.py:631-685 | rescanning joined tokens gives the same tokens back |
| Router.UnwordsStripped | lab_instruments/repl.py:631-685 | a joined command is already stripped |
| Router.Then | lab_instruments/repl.py:631-685 | after a command that exits, nothing more runs; otherwise the traces concatenate |
| Router.RepeatedClosed | lab_instruments/repl.py:587-596 | n repetitions run the command n times, stop at the first exit, and do nothing for n <= 0 |
| Router.IndexWhereAll | lab_instruments/repl.py:598-627 | finds the first token equal to `all`, case-insensitively |
| Router.FanOut | lab_instruments/repl.py:598-627 | fan-out happens only when an `all` token is present and gives at least one command |
| Router.Substitute | lab_instruments/repl.py:598-627 | one command per channel, with `all` replaced by that channel |
| Router.DropSemis | lab_instruments/repl.py:650-652 | leading `;` tokens after `end` are dropped |
| Router.DropSemisSuffix | lab_instruments/repl.py:650-652 | what remains is a suffix of the tokens |
| Router.RepeatForm | lab_instruments/repl.py:634-674 | a found `repeat … end` form has its `end` at least two tokens later; a `repeatall` form has its count token |
| Router.Keyword | lab_instruments/repl.py:634-664 | the `repeat`/`repeatall` keyword position is inside the line |
| Router.Parse | lab_instruments/repl.py:631-685 | a looped form's body and rest are shorter than the line, and the rest does not begin with `;` |
| Router.Rescan | lab_instruments/repl.py:631-685 | routing a joined token list is routing those tokens |
| Router.ChunkForms | lab_instruments/repl.py:675-684 | one routed form per non-empty `;` chunk at most |
| Router.RunEachThrough | lab_instruments/repl.py:675-684 | chunks that do not exit all run, in order |
| Router.RunEachStops | lab_instruments/repl.py:675-684 | the first chunk that exits ends the line |
| Router.ChunksForms | lab_instruments/repl.py:675-684 | running the chunks one by one equals running the forms decided up front |
| RouterProps.DispatchEachStops | lab_instruments/repl.py:622-627 | the per-channel commands of a fan-out run up to and including the first that exits |
| RouterProps.DispatchEachShape | lab_instruments/repl.py:622-627 | the fan-out trace is a prefix of the per-channel commands, and only its last command may exit |
| RouterProps.DispatchEachThrough | lab_instruments/repl.py:622-627 | with no exiting command every channel's command runs |
| Router.ScriptCommands | lab_instruments/repl.py:576-579 | a script's commands are its stripped lines that are neither blank nor `#` comments, never more than the lines |
| Router.CommandOutcomes | lab_instruments/repl.py:581 | one run per command, each what `onecmd` does with that command alone |
| RouterProps.ScriptRunCommands | lab_instruments/repl.py:574-583 | running a script is running its stripped commands alone: blank lines and `#` comments contribute nothing |
| RouterProps.OnecmdEachOutcomes | lab_instruments/repl.py:574-583 | the script's commands run one after the other, each as `onecmd` runs it alone, stopping at the first that exits |
| RouterProps.ChunksAppend | lab_instruments/repl.py:675-684 | running two chunk lists is running one then the other |
| RouterProps.ChunksExit | lab_instruments/repl.py:675-684 | a `;` line exits iff some non-empty chunk exits |
| RouterProps.ChainedLine | lab_instruments/repl.py:675-684 | a line with `;` and no repeat form runs its chunks in order |
| RouterProps.RepeatBlockRun | lab_instruments/repl.py:634-664 | `repeat n … end rest` runs the body n times, then the rest |
| RouterProps.RepeatAllRun | lab_instruments/repl.py:665-674 | `repeatall n cmd` runs the command n times |
| RouterProps.RepeatBlockZero | lab_instruments/repl.py:634-664 | with n <= 0 only the rest runs |
| RouterProps.RepeatDropsPrefix | lab_instruments/repl.py:633-654 | tokens before the `repeat` keyword are ignored: the line runs as if it began at `repeat` |
| RouterProps.SingleRepeat | lab_instruments/repl.py:587-596 | `repeat n cmd` on one chunk runs cmd n times, and is sent on unchanged when n is not an integer |
| RouterProps.SingleFanOut | lab_instruments/repl.py:598-627 | an `all` command with channels runs once per channel, else it is sent on as typed |
| RouterProps.LegacyNoFanOut | repl.py:543-555 | the legacy router sends a single command on unchanged |
| Console.Dispatcher.Onecmd | lab_instruments/repl.py:631-685 | the base dispatcher records the line and reports whether it exits |
| Console.DispatchRepeated | lab_instruments/repl.py:587-596 | the repeat loop has the trace and exit of the specified repetition |
| Console.DispatchEachLine | lab_instruments/repl.py:622-627 | the per-channel loop of the fan-out has the trace and exit of the specified dispatch |
| Console.RunScriptLine | lab_instruments/repl.py:576-581 | one script line is stripped and run through `onecmd`, unless it is blank or a comment |
| Console.RunScriptLines | lab_instruments/repl.py:574-583 | the script loop has the trace and exit of the specified script run |
| Console.RunSingleForm | lab_instruments/repl.py:585-629 | running one routed form matches its specification |
| Console.RunSingleLine | lab_instruments/repl.py:585-629 | `_onecmd_single` matches its specification |
| Console.RunChunks | lab_instruments/repl.py:675-684 | the chunk loop matches its specification |
| Console.RunRepeated | lab_instruments/repl.py:634-674 | the repeat-form loop matches its specification |
| Console.RunProg | lab_instruments/repl.py:631-685 | a parsed line runs as specified |
| Console.Onecmd | lab_instruments/repl.py:631-685 | `onecmd` has exactly the trace and exit of the routing specification |
| Controller.Single | lab_instruments/repl.py:695-801 | one driver call |
| Controller.Chain | lab_instruments/repl.py:695-801 | calls run in order and a failure stops the rest |
| Controller.DisableEach | lab_instruments/repl.py:716-721 | one disable per channel, in order; errors are swallowed |
| Controller.Visit | lab_instruments/repl.py:695-801 | a sweep makes at most five driver calls per device |
| Controller.SweepReports | lab_instruments/repl.py:695-801 | one report per device, in registry order, with that device's outcome |
| Controller.SweepCallsAppend | lab_instruments/repl.py:695-801 | sweeping two registries calls the first's devices, then the second's |
| Controller.QuietSweepsNeverEnable | lab_instruments/repl.py:695-775 | the safe and off sweeps of both shells never turn any output on |
| Controller.OnSweepOnlyEnables | lab_instruments/repl.py:777-801 | the on sweep of either shell only turns outputs on |
| Controller.DisableInTurn | repl.py:693-697 | the older shell's per-channel disables are tried in channel order, with no guard of their own |
| Controller.DisableInTurnOutcome | repl.py:693-697 | the per-channel disables succeed iff every channel's does; otherwise they stop at the failing one |
| Controller.LegacyScopeDisableStops | repl.py:684-697 | in the older shell's off a scope fails, and leaves later channels alone, as soon as one channel's disable fails; the current off reports it done |
| Controller.LegacyAwgOffOrder | repl.py:676-682 | the older shell's off uses the keyword enable before disable-all, so a driver without the keywords fails its turn |
| Controller.ScopeDisableFailuresSwallowed | lab_instruments/repl.py:711-721 | a scope without stop or disable-all gets per-channel disables whose failures are swallowed |
| Controller.ScopeStopFailureStopsTurn | lab_instruments/repl.py:711-728 | a failing scope stop ends that scope's turn as a failure, in the safe and off sweeps of both shells |
| Controller.AwgOnFallback | lab_instruments/repl.py:786-793 | in either shell's on sweep, a generator without keyword enable is switched on channel by channel after the keyword call fails |
| Controller.ResetOutcome | lab_instruments/repl.py:730-736 | reset succeeds iff the device supports it and the call does not fail |
| Controller.LegacySweepsSkipNumbered | repl.py:667-734 | the older shell's safe, off and on sweeps skip `awg1`/`scope2`, which the current sweeps handle |
| Session.Labels | lab_instruments/repl.py:2525-2563 | the label set is exactly the logged names |
| Session.Table | lab_instruments/repl.py:2525-2563 | `m` has one entry per logged label |
| Session.TableLatest | lab_instruments/repl.py:2525-2563 | `m[label]` is the last value logged under that label |
| Session.StripHelp | lab_instruments/repl.py:306-314 | a trailing help flag is detected and removed; otherwise the arguments are unchanged |
| Session.UnitValue | lab_instruments/repl.py:2525-2563 | `unit=x` yields x |
| Session.ExprWords | lab_instruments/repl.py:2541-2548 | every expression word is a token that is not a `unit=` token, and every such token is an expression word |
| Session.ExprWordsAppend | lab_instruments/repl.py:2541-2548 | dropping `unit=` tokens distributes over concatenation, so the expression keeps the tokens' order and count |
| Session.ExprWordsNoUnit | lab_instruments/repl.py:2541-2548 | tokens without a `unit=` token form the expression unchanged |
| Session.ExprWordsOne | lab_instruments/repl.py:2541-2548 | a single token is dropped iff it is a `unit=` token |
| Session.CalcNames | lab_instruments/repl.py:2525-2563 | calc sees exactly `m`, the label table, and `last` |
| Session.CalcRecord | lab_instruments/repl.py:2525-2563 | a successful calc logs exactly one measurement, a failed one none |
| Session.UnitOfLatest | lab_instruments/repl.py:2525-2563 | the last `unit=` token wins |
| Session.CalcSees | lab_instruments/repl.py:2525-2563 | `last` is the newest value and `m["label"]` the latest value of that label |
| Session.CalcEmptyLog | lab_instruments/repl.py:2525-2563 | with an empty log `last` is None and the current calc cannot complete |
| Session.CalcDoneMeans | lab_instruments/repl.py:2525-2563 | a completed calc had no help flag, had a label and an expression, parsed, and evaluated to the logged value |
| Session.Frames | lab_instruments/repl.py:352-368 | one frame per character of the padded message |
| Session.FrameRotates | lab_instruments/repl.py:352-368 | frame k shows the padded message rotated by k, cut to the width |
| Session.Present | repl.py:158-234 | the preferred names that are registered |
| Session.Choice | repl.py:212-232 | a numbered or named answer picks one of the candidates |
| Session.FirstChoice | repl.py:212-232 | the prompt loop returns a candidate |
| Session.ResolveLegacyRegistered | repl.py:158-234 | a legacy resolution is a registered name of the type, and the preference changes only to remember it |
| Session.ChoiceRemembered | repl.py:195-232 | once chosen, the same type resolves again without asking |
| Session.ResolveLegacySingle | repl.py:158-234 | a single registered name of the type resolves without asking |
| Shell.DropWord | lab_instruments/repl.py:855-873 | the text after the first word is no longer than the line |
| Shell.CalcTokens | lab_instruments/repl.py:2525-2563 | the calc argument loop separates the unit and the expression words as specified |
| Shell.RunSweep | lab_instruments/repl.py:695-801 | the sweep loop makes the specified calls and reports |
| Shell.InstrumentShell.constructor | lab_instruments/repl.py:92-129 | start-up scans, selects the first device found, and starts with an empty log and no text loop |
| Shell.InstrumentShell.Scan | lab_instruments/repl.py:157-160 | the registry becomes the discovery result; the selection is kept if still present, else the first device |
| Shell.InstrumentShell.GetDevice | lab_instruments/repl.py:162-178 | a named or selected device is found iff it is registered |
| Shell.InstrumentShell.Use | lab_instruments/repl.py:834-853 | `use n` selects n only when it is registered; nothing else changes |
| Shell.InstrumentShell.Close | lab_instruments/repl.py:1011-1023 | close disconnects every device in order and empties the registry and selection |
| Shell.InstrumentShell.SweepAll | lab_instruments/repl.py:695-801 | a sweep appends its calls and reports and changes nothing else |
| Shell.InstrumentShell.All | lab_instruments/repl.py:1207-1231 | `all safe/off/on/reset` runs that shell's sweep (the older shell's own sweeps in the legacy dialect); anything else changes nothing |
| Shell.InstrumentShell.CleanupOnExit | lab_instruments/repl.py:131-139 | cleanup runs the safe sweep once, only when devices exist |
| Shell.InstrumentShell.RecordMeasurement | lab_instruments/repl.py:387-395 | appends exactly one measurement |
| Shell.InstrumentShell.Log | lab_instruments/repl.py:2457-2523 | `log clear` empties the log; other forms leave it |
| Shell.InstrumentShell.Calc | lab_instruments/repl.py:2525-2563 | calc appends its record exactly when it succeeds |
| Shell.InstrumentShell.Default | lab_instruments/repl.py:855-873 | a registered numbered device word routes its handler with that device as override; anything else is unknown syntax |
| Shell.InstrumentShell.StartTextLoop | lab_instruments/repl.py:352-368 | starting the loop installs the frames at index 0 |
| Shell.InstrumentShell.StopTextLoop | lab_instruments/repl.py:346-350 | stopping clears the frames and deactivates the loop |
| Shell.InstrumentShell.Tick | lab_instruments/repl.py:370-385 | a due tick shows the current frame and advances cyclically; a failure stops the loop |
| Shell.InstrumentShell.ResolveLegacy | repl.py:158-234 | the legacy resolution updates only the remembered preferences |
| Shell.InstrumentShell.Onecmd | lab_instruments/repl.py:631-685 | the shell's `onecmd` has the routing specification's trace and exit |
| Discovery.FirstContained | lab_instruments/src/discovery.py:220-223 | the first key contained in the reply, or none |
| Discovery.MatchModel | lab_instruments/src/discovery.py:220-223 | a matched model has a name and a fallback name |
| Discovery.Put | lab_instruments/src/discovery.py:248 | storing appends a new name or keeps the name order |
| Discovery.PutLookup | lab_instruments/src/discovery.py:248 | the stored name now maps to the device; other names are unchanged |
| Discovery.GenericNamesValues | lab_instruments/src/discovery.py:38-47 | the accepted names are exactly the values of the name table |
| Discovery.MatchModelFirst | lab_instruments/src/discovery.py:220-223 | the first matching table key in declaration order is chosen |
| Discovery.SkippedNotProbed | lab_instruments/src/discovery.py:173-178 | Bluetooth resources are never identified or stored |
| Discovery.IgnoredResource | lab_instruments/src/discovery.py:193-255 | a resource that is unidentified or fails to connect changes nothing |
| Discovery.ScannedUnique | lab_instruments/src/discovery.py:146-286 | the scan result has unique names |
| Discovery.ScannedProvenance | lab_instruments/src/discovery.py:146-286 | every entry comes from a connected, identified, non-Bluetooth resource, under its name or its fallback |
| Discovery.NameConflict | lab_instruments/src/discovery.py:227-233 | when the name is taken, the device goes under the fallback name and the first keeps its name |
| Discovery.GenericNameKept | lab_instruments/src/discovery.py:227-233 | a name once stored keeps its device for the rest of the scan |
| Discovery.FallbackNotGeneric | lab_instruments/src/discovery.py:50-59 | fallback names never collide with generic names |
| Discovery.FallbackOverwritten | lab_instruments/src/discovery.py:227-272 | a third device of one kind overwrites the fallback entry |
| Discovery.InstrumentDiscovery.constructor | lab_instruments/src/discovery.py:61-63 | discovery starts with no devices |
| Discovery.InstrumentDiscovery.Scan | lab_instruments/src/discovery.py:146-286 | the scan loop returns the specified registry, with unique names; a failed listing returns empty and keeps the stored devices |
| Discovery.InstrumentDiscovery.MatchKey | lab_instruments/src/discovery.py:220-223 | the key-matching loop picks the specified model |
| Discovery.InstrumentDiscovery.Get | lab_instruments/src/discovery.py:288-295 | an unknown generic name is an error; a known one gives the stored device if any |
| Bk4063.ChannelName | lab_instruments/src/bk_4063.py:17 | channels name as `C1`/`C2` |
| Bk4063.KeywordFields | lab_instruments/src/bk_4063.py:180-187 | keyword arguments become upper-cased key/value fields in order |
| Bk4063.DecodeFields | lab_instruments/src/bk_4063.py:128-141 | decoding gives one value slot per key |
| Bk4063.DecodeFieldsRoundTrip | lab_instruments/src/bk_4063.py:128-141 | decoding the encoded optional parameters gives them back |
| Bk4063.BswvRoundTrip | lab_instruments/src/bk_4063.py:90-145 | the BSWV command decodes back to the wave type and parameters |
| Bk4063.DcOutputCommand | lab_instruments/src/bk_4063.py:147-149 | DC output is `Cn:BSWV WVTP,DC,OFST,v` |
| Bk4063.ModulationCommands | lab_instruments/src/bk_4063.py:155-187 | modulation writes the state, type, source and then the keyword fields |
| Bk4063.SweepAsWrittenMissesBlank | lab_instruments/src/bk_4063.py:205-209 | as written, the sweep parameters render as `C1:SWWV,TIME,1` |
| Bk4063.SweepWithBlank | lab_instruments/src/bk_4063.py:205-209 | the intended command is `C1:SWWV TIME,1` |
| Bk4063.SwitchedCommands | lab_instruments/src/bk_4063.py:189-231 | the intended sweep or burst writes the state, then the parameters when enabling with arguments |
| Bk4063.SwitchedAsWrittenDiffers | lab_instruments/src/bk_4063.py:205-231 | the written and intended parameter commands differ on every enable with arguments |
| Bk4063.CopyChannelCommand | lab_instruments/src/bk_4063.py:237-244 | copy is accepted iff both channels are valid, and writes `PACP Cd,Cs` |
| Bk4063.BK4063.constructor | lab_instruments/src/bk_4063.py:21-23 | a new driver is disconnected |
| Bk4063.BK4063.EnableOutput | lab_instruments/src/bk_4063.py:44-58 | performs the enable plan |
| Bk4063.BK4063.DisableAllChannels | lab_instruments/src/bk_4063.py:39-42 | both outputs are switched off |
| Bk4063.BK4063.SetOutputImpedance | lab_instruments/src/bk_4063.py:60-73 | performs the load plan |
| Bk4063.BK4063.SetSyncOutput | lab_instruments/src/bk_4063.py:75-84 | performs the sync plan |
| Bk4063.BK4063.SetWaveform | lab_instruments/src/bk_4063.py:90-145 | performs the BSWV plan |
| Bk4063.BK4063.SetDcOutput | lab_instruments/src/bk_4063.py:147-149 | performs the DC BSWV plan |
| Bk4063.BK4063.SetModulation | lab_instruments/src/bk_4063.py:155-187 | performs the modulation plan |
| Bk4063.BK4063.SetSweep | lab_instruments/src/bk_4063.py:189-209 | performs the sweep commands as written |
| Bk4063.BK4063.SetBurst | lab_instruments/src/bk_4063.py:211-231 | performs the burst commands as written |
| Bk4063.BK4063.CopyChannel | lab_instruments/src/bk_4063.py:237-244 | performs the copy plan |
| Keysight.Source | lab_instruments/src/keysight_edu33212a.py:54-56 | the source prefix is `SOURce1` or `SOURce2` |
| Keysight.Output | lab_instruments/src/keysight_edu33212a.py:62-71 | the output prefix is `OUTPut1` or `OUTPut2` |
| Keysight.WaveformValidates | lab_instruments/src/keysight_edu33212a.py:258-297 | set_waveform is rejected iff the channel or the wave type is invalid; it first selects the function |
| Keysight.WaveformUnshaped | lab_instruments/src/keysight_edu33212a.py:258-297 | DC and noise never get frequency or amplitude commands |
| Keysight.WaveformGiven | lab_instruments/src/keysight_edu33212a.py:258-297 | each given parameter produces its command |
| Keysight.WaveformRouting | lab_instruments/src/keysight_edu33212a.py:258-297 | duty goes only to square and symmetry only to ramp, with the given value |
| Keysight.DcOutputIsWaveform | lab_instruments/src/keysight_edu33212a.py:299-307 | DC output is the DC waveform with only an offset |
| Keysight.LoadInfinity | lab_instruments/src/keysight_edu33212a.py:78-90 | a named load means infinity iff it is INF or INFINITY in any case |
| Keysight.FskRate | lab_instruments/src/keysight_edu33212a.py:404-429 | FSK off writes only the state; on writes the state, the hop frequency and the source first, and the rate command is written iff the state is on and the source upper-cases to `INTERNAL` |
| Keysight.StateLocations | lab_instruments/src/keysight_edu33212a.py:559-577 | state storage accepts locations 0-4 |
| Keysight.EDU33212A.constructor | lab_instruments/src/keysight_edu33212a.py:30-32 | a new driver is disconnected |
| Keysight.EDU33212A.EnableOutput | lab_instruments/src/keysight_edu33212a.py:62-71 | performs the output plan |
| Keysight.EDU33212A.DisableAllChannels | lab_instruments/src/keysight_edu33212a.py:73-76 | both outputs off |
| Keysight.EDU33212A.SetOutputLoad | lab_instruments/src/keysight_edu33212a.py:78-90 | performs the load plan |
| Keysight.EDU33212A.SetFunction | lab_instruments/src/keysight_edu33212a.py:112-123 | performs the function plan |
| Keysight.EDU33212A.SetSetting | lab_instruments/src/keysight_edu33212a.py:125-237 | the per-channel setters write `SOURce<n><suffix> value` |
| Keysight.EDU33212A.SetWaveform | lab_instruments/src/keysight_edu33212a.py:258-297 | the setter sequence performs the waveform plan |
| Keysight.EDU33212A.SetDcOutput | lab_instruments/src/keysight_edu33212a.py:299-307 | performs the DC plan |
| Keysight.EDU33212A.SetFsk | lab_instruments/src/keysight_edu33212a.py:404-429 | performs the FSK plan |
| Keysight.EDU33212A.SaveState | lab_instruments/src/keysight_edu33212a.py:559-567 | `*SAV` within the locations |
| Keysight.EDU33212A.RecallState | lab_instruments/src/keysight_edu33212a.py:569-577 | `*RCL` within the locations |
| Matrix.RoundHalfEven | lab_instruments/src/matrix_mps6010h.py:82-98 | `.3f` rounding is within half a unit, and to even on a tie |
| Matrix.ThreeDigits | lab_instruments/src/matrix_mps6010h.py:82-98 | three digits read back as their value |
| Matrix.Fixed3Reads | lab_instruments/src/matrix_mps6010h.py:82-98 | the `.3f` text reads back as the value rounded to millis |
| Matrix.SettersCache | lab_instruments/src/matrix_mps6010h.py:82-116 | a setter is invalid iff out of range, succeeds iff in range and connected, and caches only on success |
| Matrix.DisableOutputSafe | lab_instruments/src/matrix_mps6010h.py:72-80 | disable writes OUTP 0, VOLT 0.000, CURR 0.100 and caches the safe state |
| Matrix.Fixed3Safe | lab_instruments/src/matrix_mps6010h.py:72-80 | the safe values print as 0.000 and 0.100 |
| Matrix.SetOutputVoltageFirst | lab_instruments/src/matrix_mps6010h.py:118-127 | a bad current after a good voltage leaves the voltage set |
| Matrix.OutputChannelLimit | lab_instruments/src/matrix_mps6010h.py:228-239 | without a limit, the current limit and output state stay |
| Matrix.MPS6010H.constructor | lab_instruments/src/matrix_mps6010h.py:30-37 | a new driver has the initial cache |
| Matrix.MPS6010H.Connect | lab_instruments/src/matrix_mps6010h.py:39-57 | connecting writes REM:ON |
| Matrix.MPS6010H.SetVoltage | lab_instruments/src/matrix_mps6010h.py:82-98 | cache, status and writes are those of the voltage step |
| Matrix.MPS6010H.SetCurrentLimit | lab_instruments/src/matrix_mps6010h.py:100-116 | same for the current step |
| Matrix.MPS6010H.EnableOutput | lab_instruments/src/matrix_mps6010h.py:129-138 | same for the output step |
| Matrix.MPS6010H.SetOutput | lab_instruments/src/matrix_mps6010h.py:118-127 | voltage, then current |
| Matrix.MPS6010H.DisableOutput | lab_instruments/src/matrix_mps6010h.py:72-80 | the safe state when connected |
| Matrix.MPS6010H.SetOutputChannel | lab_instruments/src/matrix_mps6010h.py:228-239 | the channel form of set_output |
| Matrix.MPS6010H.MeasureVoltage | lab_instruments/src/matrix_mps6010h.py:176-193 | the reading, or the cached setpoint when the query fails |
| Hp34401a.FrameCommands | lab_instruments/src/hp_34401a.py:418-453 | one display command per rotation, each of width characters |
| Hp34401a.DisplayTextTruncates | lab_instruments/src/hp_34401a.py:407-416 | the display shows the first 12 characters |
| Hp34401a.ConfigureDcNplc | lab_instruments/src/hp_34401a.py:76-91 | NPLC is written only when given, after the configuration |
| Hp34401a.RollingArguments | lab_instruments/src/hp_34401a.py:418-453 | a width <= 0 is rejected; loops <= 0 means one |
| Hp34401a.RollingShort | lab_instruments/src/hp_34401a.py:418-453 | text that fits is displayed once |
| Hp34401a.RollingCount | lab_instruments/src/hp_34401a.py:418-453 | loops times padded-length frames |
| Hp34401a.RollingPasses | lab_instruments/src/hp_34401a.py:418-453 | each pass is the same frame sequence |
| Hp34401a.HP34401A.constructor | lab_instruments/src/hp_34401a.py:59-61 | a new driver is disconnected |
| Hp34401a.HP34401A.ConfigureDcVoltage | lab_instruments/src/hp_34401a.py:76-91 | performs the plan |
| Hp34401a.HP34401A.DisplayText | lab_instruments/src/hp_34401a.py:407-416 | performs the plan |
| Hp34401a.HP34401A.DisplayTextRolling | lab_instruments/src/hp_34401a.py:418-453 | the rolling loop performs the plan |
| Hp34401a.HP34401A.Scroll | lab_instruments/src/hp_34401a.py:449-453 | the outer loop writes count passes |
| Hp34401a.HP34401A.ScrollOnce | lab_instruments/src/hp_34401a.py:450-453 | the inner loop writes one pass |
| Hpe3631a.ChannelTables | lab_instruments/src/hp_e3631a.py:21-31 | the channel and default-limit tables have the same keys |
| Hpe3631a.DisableAllSafe | lab_instruments/src/hp_e3631a.py:50-65 | output off, then every channel set to 0 V with its safe limit |
| Hpe3631a.OutputChannelDefaults | lab_instruments/src/hp_e3631a.py:89-108 | APPLY with the given limit or the channel's default; unknown channels rejected |
| Hpe3631a.MeasureSelectsFirst | lab_instruments/src/hp_e3631a.py:110-154 | selects the channel, then queries |
| Hpe3631a.BlankReading | lab_instruments/src/hp_e3631a.py:110-131 | a blank reply gives no reading |
| Hpe3631a.StateLocations | lab_instruments/src/hp_e3631a.py:175-185 | locations 1-3 |
| Hpe3631a.HPE3631A.constructor | lab_instruments/src/hp_e3631a.py:33-35 | a new driver is disconnected |
| Hpe3631a.HPE3631A.Connect | lab_instruments/src/hp_e3631a.py:37-41 | connect clears status and disables everything |
| Hpe3631a.HPE3631A.EnableOutput | lab_instruments/src/hp_e3631a.py:67-74 | performs the plan |
| Hpe3631a.HPE3631A.DisableAllChannels | lab_instruments/src/hp_e3631a.py:50-65 | performs the safe list |
| Hpe3631a.HPE3631A.SelectChannel | lab_instruments/src/hp_e3631a.py:76-87 | performs the plan |
| Hpe3631a.HPE3631A.SetOutputChannel | lab_instruments/src/hp_e3631a.py:89-108 | performs the plan |
| Hpe3631a.HPE3631A.SetChannelSetting | lab_instruments/src/hp_e3631a.py:156-164 | select, then set |
| Hpe3631a.HPE3631A.Measure | lab_instruments/src/hp_e3631a.py:110-154 | writes, status and value as specified |
| Hpe3631a.HPE3631A.SaveState | lab_instruments/src/hp_e3631a.py:175-179 | `*SAV` within locations |
| Hpe3631a.HPE3631A.RecallState | lab_instruments/src/hp_e3631a.py:181-185 | `*RCL` within locations |

`RouterProps.RepeatDropsPrefix` records a behaviour of `onecmd` that the model keeps deliberately. In a line such as `psu on ; repeat 2 dmm read end`, the tokens before the `repeat` keyword are never run, because `lab_instruments/repl.py:633-654` routes only from `repeat` onward. Whether the authors meant this is unclear, so it is modelled as written and not filed as a finding.

## Left out

- **Tokenising.** `shlex.split` is modelled by the whitespace split `Text.Words`, so quoting is not modelled.
  - In the source, `set msg "a b"` binds `a b`. In the model it binds `"a b"` with its quotes.
  - An unbalanced quote raises ValueError in `_expand_script_lines` and returns `[]` in `_parse_args`. Neither path is modelled.
  - This affects the expanders, `_parse_args` users, `calc` and `log`.
- **Numbers.** IEEE floats are modelled as exact reals. Overflow to infinity and binary rounding are lost.
  - `**` with a non-integral exponent is reported as unmodelled. `set` then falls back to the substituted text, where Python binds the float.
  - `min` and `max` over a dict compare keys in Python; the model reports an error.
- **Text.Strip, Text.Lower, Text.Upper, Text.ParseInt, Registry.StripDigits, Registry.MatchesType:** these are ASCII only. Python's `strip`, `lower`, `upper`, `int` and the regular expression `\d` also accept Unicode whitespace, letters and digits, and `int` accepts `_` separators.
- **Routing across `;`.** The router fixes the registry and the override for a whole `;` line. In Python each chunk re-resolves the registry, so `scan ; psu all on` fans out over the post-scan registry. The model uses the registry as it was before the line.
- **Console.RunScriptLines:** the call to `_tick_dmm_text_loop` before each script line (lab_instruments/repl.py:580) is not made; the DMM text loop is modelled on its own as `Shell.InstrumentShell.Tick`. The loop takes the lines `_expand_script_lines` produced as its input, and, as for `;` lines, one registry and override serve the whole script.
- **Defaults and sleeps.** Default arguments (e.g. `hop_freq=100.0`) are explicit parameters. Sleeps and delays are dropped.
- **I/O and the bus.**
  - pyvisa: the resource listing, `*IDN?` replies and connect outcomes are parameters.
  - The serial and JDS6600 IDN probes (`_try_serial_idn`, `_try_jds6600_idn`) are abstracted as the reply they yield.
- **Not modelled in the console.**
  - clocks and timers, signal and atexit registration, printing and colours;
  - the log file written by `log save`;
  - script load, save and edit;
  - help and usage text.
- **Driver operations not modelled.**
  - Keysight polarity, sync, AM/FM/PM/PWM, sweep, burst, trigger, pulse period/width/edge, high/low and voltage unit. These are thin one-command setters like those modelled.
  - BK `get_error`, E3631A `get_error`/`set_tracking`, Matrix getters, `measure_current` and the per-channel measure functions.
  - The HP 34401A's other configure, measure and trigger functions.
- **Other drivers.** The Rigol, Tektronix, OWON and JDS6600 drivers are not part of this model.
- **Matrix.Fixed3Reads:** `.3f` formatting is proved for non-negative values only. Negative setpoints are rejected by the range checks before formatting.
- **Controller.Visit:** its own contract only bounds the number of calls per device. What each sweep does is stated by the Controller lemmas.

## Findings

| source | as written | input that shows it | evidently intended | confidence | as-written member | corrected member |
|---|---|---|---|---|---|---|
| lab_instruments/src/bk_4063.py:205-209 | the sweep (and burst, 227-231) parameter command joins the header and the fields with commas | `set_sweep(1, True, TIME=1)` writes `C1:SWWV,TIME,1` | `C1:SWWV TIME,1`, with a blank after the header as in every other BK command | not executed | Bk4063.SweepAsWrittenMissesBlank | Bk4063.SweepWithBlank |
