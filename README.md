# smol core, modelled in Dafny

smol is a small Go framework for message-passing "units". This project models four of its components, with goroutines and locks abstracted away.

- **The unit registry** (`unit/registry.go`, module `Unit`). It keeps three things:
  - a directory from names to units;
  - a table of canonical `unitRef`s, each with a `closed` flag;
  - a subscription graph from a publisher's name to its subscribers' names.

  `Registry`, `UnitRef` and `RegistryCtx` are classes whose methods update these maps in place. `Send` does not launch goroutines. It returns the deliveries it would launch: the direct delivery, then one delivery per reachable subscriber. The deliveries are computed from the state at call time.
- **The instruction executor** (`control/instruction_executor.go`, module `Control`). It has three parts:
  - the whitespace command parser `parseCommand`;
  - the mutable dispatch table of command handlers;
  - the default `help`, `list` and `query` handlers.

  The `CommandResult` that `handleInstruction` sends back to the caller is returned as `reply`.
- **Registers** (`tools/registers.go`, module `RegistersTool`). This is a named-value map. The text interpreter `Handle` drives it, and `parseValue` classifies values. `Handle` is specified by the function `Step` on the map, and the command-level properties are lemmas about `Step`.
- **Memory** (`tools/memory.go`, module `MemoryTool`). This is a key/value map with an `Info` summary.

Supporting modules:
- `Common` holds Option/Result, map lookup and a copy loop.
- `Text` models the parts of Go's `strings` and `unicode` packages the parsers rely on: `Fields`, `TrimSpace`, `Join` and `ToLower`.
- `Strconv` models `ParseInt(s, 10, 64)`, the accept/reject behaviour of `ParseFloat(s, 64)`, and `FormatInt`.
- `UnitProperties` and `ControlProperties` hold multi-step properties stated as methods over the classes.

Unit identity is an abstract `UnitId`, so the identity scan of `Subscribe`/`Unsubscribe` becomes a search over the directory's values. Unsubscribe is modelled as written: it removes the *other* unit's name from the set kept under the *caller's* own name. So it does not undo Subscribe, which adds the caller's name under the other unit's name. `Unit.UnsubscribeKeepsSubscription` and `UnitProperties.UnsubscribeThenSend` make this concrete: after subscribe-then-unsubscribe, a send by the publisher still reaches the former subscriber.

## Model

| member | source | states |
|---|---|---|
| Unit.Registry.constructor | unit/registry.go:29-38 | A new registry has no units, refs or subscriptions, is not cancelled, and satisfies the registry invariant. |
| Unit.Registry.Register | unit/registry.go:40-51 | The unit is stored under the name, replacing any earlier one. The name gets a freshly allocated open ref. Every other name's unit and ref, and the subscriptions, are unchanged. The invariant is kept. |
| Unit.Registry.Start | unit/registry.go:53-66 | Exactly one Init call per registered name (as multisets), each for that name's unit with its canonical ref as self. |
| Unit.Registry.Stop | unit/registry.go:68-77 | The registry is cancelled and every subscription is gone. Units and refs are unchanged. |
| Unit.Registry.GetUnit | unit/registry.go:79-85 | A unit is found exactly when the name is registered, and it is the registered one. |
| Unit.Registry.GetRef | unit/registry.go:87-92 | Non-nil exactly when the name has a ref. Under the invariant, that ref carries the name, points back to this registry, and the name has a unit. |
| Unit.Registry.FanOutDeliveries | unit/registry.go:116-134 | One delivery per subscriber of the publisher that has a unit and an open canonical ref, and none to anyone else (as multisets). Each goes to that subscriber's unit through its canonical ref, from the sender, with the message. |
| Unit.Registry.ResolveName | unit/registry.go:190-196 | A found name owns the unit. No owner gives "". If some owner exists and "" is not an owner, a name is found. |
| Unit.UnitRef.constructor | unit/registry.go:44-47 | A new ref has the given name and registry and is open. |
| Unit.UnitRef.Name | unit/registry.go:94-96 | The name the ref was created with, which never changes. |
| Unit.UnitRef.Stop | unit/registry.go:137-139 | The ref is closed. Only its closed flag may change, and no method reopens it. |
| Unit.UnitRef.Send | unit/registry.go:98-135 | A closed ref, or a name with no unit, yields no deliveries. Otherwise the first delivery goes directly to the named unit with this ref as both self and sender. The rest are exactly the fan-out to the reachable subscribers, and the targets of all deliveries are the name plus that fan-out (as multisets). |
| Unit.RegistryCtx.Self | unit/registry.go:182-184 | The ref the context was created with. Start and Spawn create contexts whose self is the unit's canonical ref. |
| Unit.RegistryCtx.Units | unit/registry.go:141-153 | Every registered name appears exactly once, each paired with its own unit. |
| Unit.RegistryCtx.Spawn | unit/registry.go:155-180 | An existing name returns its current ref, calls no factory and changes nothing. A new name adds exactly that name with the factory's unit and a fresh open ref, and yields one Init call for that unit with that ref as self. |
| Unit.RegistryCtx.Subscribe | unit/registry.go:186-207 | If no name owns the unit, the subscriptions are unchanged. If a single non-empty name owns it, the caller's name is added under that name. In every case, either nothing changed or the caller was added under some owner. Units, refs and cancellation are untouched. |
| Unit.RegistryCtx.Unsubscribe | unit/registry.go:209-232 | If no name owns the unit, the subscriptions are unchanged. If a single non-empty name owns it, that name is removed from the set under the caller's own name, and the key is dropped once its set is empty. Nothing else changes. |
| Unit.AddSubscriber | unit/registry.go:202-206 | Adds exactly the subscriber to the publisher's set. Every other publisher's set is unchanged. |
| Unit.RemoveSubscriber | unit/registry.go:225-231 | Removes exactly the name from the set under the key, and keeps the key exactly when something remains. Every other key's set is unchanged. |
| Unit.AddSubscriberIdempotent | unit/registry.go:202-206 | Subscribing twice leaves the same graph as subscribing once. |
| Unit.UnsubscribeKeepsSubscription | unit/registry.go:209-232 | After S subscribes to P and then unsubscribes from P, with P different from S, S is still in P's subscriber set. |
| Unit.UnsubscribeUndoesMirror | unit/registry.go:225-231 | What Unsubscribe removes is the mirror entry, P under S's name. |
| UnitProperties.SubscribeThenSend | unit/registry_test.go:179-209 | After a unit subscribes to a publisher, a send by the publisher reaches it once. If it is the publisher itself, it is reached twice: direct and fan-out. The publisher is always reached. |
| UnitProperties.UnsubscribeThenSend | unit/registry_test.go:127-134 | A unit that subscribed to another publisher and then unsubscribed still receives exactly one delivery per send by that publisher. |
| UnitProperties.StoppedRefSendsNothing | unit/registry.go:99-101 | After a ref is stopped, sending through it delivers nothing. |
| Control.ParseCommand | control/instruction_executor.go:124-133 | Parsing fails exactly when the input is all white space, and the failure is always "empty command". The "invalid command format" branch is never taken. |
| Control.ParseCommandFields | control/instruction_executor.go:135-151 | A successful parse has the type, action and arguments of the input's fields: lower-cased first word, second word or "", then the rest. |
| Control.ParseCommandJoin | control/instruction_executor.go:124-152 | Words joined by spaces parse to an instruction built from those same words. |
| Control.ParseCommandLayout | control/instruction_executor.go:124-152 | Words separated by any runs of white space, with any white space around them, parse to the instruction built from those words. |
| Control.TwoWordQueryHasNoArgs | control/instruction_executor.go:139-144 | "query X" parses to type query, action X and no arguments. |
| Control.StringsOrEmpty | control/instruction_executor.go:112-118 | Same length as the input; each string element is kept and every other element becomes "". |
| Control.StringsOf | control/instruction_executor.go:113-118 | The loop over an `[]any` args value converts it element by element, as StringsOrEmpty does. |
| Control.HandleHelp | control/instruction_executor.go:166-180 | Whatever the arguments, a success with the command summary as output and as data, and no error. |
| Control.InstructionExecutor.constructor | control/instruction_executor.go:45-51 | A new executor's table has exactly the keys help, list and query, bound to their default handlers, and no context. |
| Control.InstructionExecutor.RegisterDefaultCommands | control/instruction_executor.go:160-164 | help, list and query are bound to the default handlers. Every other entry is unchanged. |
| Control.InstructionExecutor.Init | control/instruction_executor.go:53-57 | The executor's context becomes the given one. |
| Control.InstructionExecutor.RegisterCommand | control/instruction_executor.go:154-158 | Only the entry for the given type changes, and it becomes the given handler. |
| Control.InstructionExecutor.HandleList | control/instruction_executor.go:182-202 | Without a context, a failure. With one, a success listing every registered unit name exactly once. |
| Control.InstructionExecutor.HandleQuery | control/instruction_executor.go:204-235 | No argument gives "query requires a target". No context gives a failure. Otherwise it succeeds with the unit exactly when a unit is registered under the first argument, and gives "unit not found" when none is. |
| Control.InstructionExecutor.RunHandler | control/instruction_executor.go:86-96 | The reply is the handler's answer to the arguments. A handler error becomes a failed result carrying that error. |
| Control.InstructionExecutor.HandleInstruction | control/instruction_executor.go:80-97 | An unregistered type returns the "unknown command type" error and sends nothing. A registered type sends exactly one reply, which is that handler's answer, and returns no error. |
| Control.InstructionExecutor.HandleStringCommand | control/instruction_executor.go:72-78 | A parse failure is the "failed to parse command" error and sends nothing. Otherwise the parsed instruction is dispatched. |
| Control.InstructionExecutor.HandleMapCommand | control/instruction_executor.go:99-122 | Dispatches the instruction read from the map: type and action only when they are strings, args as a string list or converted element by element. |
| Control.InstructionExecutor.Handle | control/instruction_executor.go:59-70 | Strings are parsed, instructions and maps are dispatched, and any other message type is the "unsupported message type" error. |
| ControlProperties.HelpOnFreshExecutor | control/instruction_executor.go:166-180 | On a new executor, any command whose first word lower-cases to "help" answers with the help text and no error. |
| ControlProperties.UnknownCommandIsError | control/instruction_executor.go:81-84 | A command whose lower-cased first word has no handler gives "unknown command type: <type>" and sends nothing. |
| ControlProperties.TwoWordQueryFails | control/instruction_executor.go:204-210 | On an executor with the default handlers, "query X" always answers with the failure "query requires a target". |
| ControlProperties.RegisteredHandlerAnswers | control/instruction_executor.go:154-158 | After registering a custom handler, a command with its type is answered by that handler's result on the arguments. |
| Text.Fields | control/instruction_executor.go:130 | Every field is a non-empty word without white space, and there are none exactly when the input is all white space. Text.FieldsCharacterised pins down which words. |
| Text.FieldsLayout | tools/registers.go:25 | Words laid out in order between runs of white space (non-empty between two words, possibly empty at the ends) are exactly the fields of the result. |
| Text.FieldsGaps | tools/registers.go:25 | Every string is its own fields laid out in order between runs of white space that are non-empty between two fields. |
| Text.FieldsCharacterised | control/instruction_executor.go:130 | For any list of words: it is the field list of a string exactly when the string is those words, in order, separated by non-empty runs of white space and surrounded by any white space. |
| Text.FieldsTrimSpace | control/instruction_executor.go:125-130 | Trimming before splitting into fields does not change the fields. |
| Text.FieldsJoin | tools/registers.go:37-38 | Splitting words joined by single spaces gives the words back. |
| Text.ToLower | control/instruction_executor.go:135 | Same length as the input; each ASCII capital letter is replaced by its small letter and every other character is kept. |
| Strconv.ParseInt | tools/registers.go:82 | Accepted text is an optional sign followed by digits, and its value fits in 64 bits. |
| Strconv.Digits | tools/memory.go:64 | A non-empty digit string whose decimal value is the number, without leading zeros: it starts with '0' only for zero, and then is just "0". |
| Strconv.ParseFormatInt | tools/registers.go:82-84 | A printed 64-bit integer parses back to itself. |
| Strconv.IsFloatLiteral | tools/registers.go:86 | Holds exactly when ParseFloat accepts the text: inf, infinity or nan, or a signed decimal literal with at least one digit, at most one point, an optional exponent and underscores only between two digits, which does not round to infinity. The empty text is never accepted. |
| Strconv.UnderscoredThousand | tools/registers.go:82-88 | "1_000" is rejected by ParseInt and accepted by ParseFloat. |
| Strconv.DoubledUnderscore | tools/registers.go:82-88 | "1__000" is rejected by both ParseInt and ParseFloat. |
| Strconv.IntLiteralIsFloatLiteral | tools/registers.go:82-88 | Every integer literal would also pass ParseFloat, so only the order of the tests makes it an int. |
| RegistersTool.ParseValue | tools/registers.go:80-98 | Never fails. |
| RegistersTool.ParseValueFormatInt | tools/registers.go:82-84 | A printed 64-bit integer is classified as that integer. |
| RegistersTool.FloatValueIsNotIntLiteral | tools/registers.go:82-88 | A value classified as a float is a float literal and not an integer literal. |
| RegistersTool.ParseValueBools | tools/registers.go:89-95 | "true" and "false" are classified as bools. |
| RegistersTool.UnderscoreSeparators | tools/registers.go:80-98 | "1_000" is classified as a float and "1__000" as text. |
| RegistersTool.NotFloatLiteral | tools/registers.go:82-88 | Text that starts with no digit, sign or point, and is not inf, infinity or nan, is neither an int nor a float. |
| RegistersTool.Registers.constructor | tools/registers.go:17-21 | A new Registers is empty. |
| RegistersTool.Registers.Set | tools/registers.go:100-104 | Stores the value under the name. Every other name keeps its value. |
| RegistersTool.Registers.Get | tools/registers.go:106-111 | Found exactly when the name is present, and the value is the stored one. |
| RegistersTool.Registers.List | tools/registers.go:147-155 | A copy equal to the current contents. Nothing changes. |
| RegistersTool.Registers.Clear | tools/registers.go:157-161 | No registers remain. |
| RegistersTool.Registers.Handle | tools/registers.go:24-78 | The reply, error and new registers are those of the command semantics `Step` on the old registers. |
| RegistersTool.Step | tools/registers.go:24-78 | A command that returns an error sends nothing and leaves the registers unchanged. One that returns no error sends exactly one reply. The "invalid value" error never occurs. |
| RegistersTool.StepSet | tools/registers.go:33-44 | "set" with a name and at least one more field stores the parse of the remaining fields joined by spaces, and shows it. |
| RegistersTool.SetStores | tools/registers.go:33-44 | "set name w1 ... wk" stores the parse of "w1 ... wk" under name, leaves every other register unchanged, and shows the stored value without error. |
| RegistersTool.SetStoresAnySpacing | tools/registers.go:25-44 | The same with any white space around and between the words: the stored value is the parse of the value words re-joined by single spaces. |
| RegistersTool.GetReads | tools/registers.go:46-55 | "get name" shows the stored value, or reports the name not found, without error and without changing anything. |
| RegistersTool.SetThenGet | tools/registers.go:33-55 | After "set name ...", "get name" shows the value that was stored. |
| RegistersTool.ClearThenGet | tools/registers.go:69-71 | After "clear" the registers are empty and every "get" reports not found. |
| RegistersTool.ListEmpty | tools/registers.go:57-60 | "list" on empty registers answers "No registers". |
| RegistersTool.ActionsAreCaseSensitive | tools/registers.go:73-74 | "SET name value" is an unknown command carrying the whole text, and changes nothing. |
| MemoryTool.Memory.constructor | tools/memory.go:14-18 | A new memory is empty. |
| MemoryTool.Memory.Set | tools/memory.go:20-24 | Stores the value under the key. Every other key is unchanged. |
| MemoryTool.Memory.Get | tools/memory.go:26-31 | Found exactly when the key is present, and the value is the stored one. Nothing changes. |
| MemoryTool.Memory.Delete | tools/memory.go:33-37 | The key is gone and every other key is unchanged. Deleting an absent key changes nothing. |
| MemoryTool.Memory.List | tools/memory.go:39-47 | A copy equal to the current contents. Nothing changes. |
| MemoryTool.Memory.Info | tools/memory.go:61-65 | "Memory: <n> items", where n is the current number of keys in decimal without leading zeros. |
| MemoryTool.SetThenGet | tools/memory.go:20-31 | After Set(k, v), Get(k) finds v. |
| MemoryTool.DeleteThenGet | tools/memory.go:33-37 | After Delete(k), Get(k) finds nothing. |
| Common.CopyMap | tools/memory.go:39-47 | The loop that copies a map entry by entry produces a map equal to the original. |

## Left out

- Goroutines and locks. `Send` returns its deliveries instead of launching them as goroutines. The read/write mutexes are not modelled. Neither are the data races on the unsynchronised `closed` flag and on the subscriber set read after the lock is released.
- Context cancellation is a `cancelled` flag that `Registry.Stop` sets. Nothing in the core reads it.
- Unit.Registry.Start and Unit.RegistryCtx.Spawn: in Go, `Init` runs synchronously while `Start` holds the read lock and `Spawn` holds the write lock. The model returns each Init call without running it. So an `Init` that calls back into the registry (`Subscribe`, `Spawn`), which deadlocks in Go, is not modelled.
- `Start`'s error result is always nil, so it is not modelled.
- Unit.Registry.ResolveName: when several names hold the same unit, Go's map iteration order picks one. The model only promises some owner, and Subscribe/Unsubscribe state their exact effect when a single name owns the unit.
- Units are compared by an abstract `UnitId`. Go's `==` on interface values panics for non-comparable dynamic types; that panic is not modelled.
- `Ctx` is always a `registryCtx`. The executor's `Init` takes one or none, and other implementations of the interface are not modelled.
- The executor's `Handle` ignores its `ctx` argument, and custom handlers see only their arguments. `Instruction.Context` is omitted.
- `from.Send` is the returned `reply`. A nil `from` (a panic in Go) is not modelled.
- Listing order. `list` returns unit names, and `Units` returns descriptors, in the order of Go's map iteration. The model states their contents as multisets.
- Text.ToLower: Go's `strings.ToLower` maps every Unicode letter to lower case. The model maps only 'A' to 'Z' and keeps every other character. So a command type such as "LİST", which Go lower-cases to "list", is an unknown type here.
- Control.ParseCommandFields: the type is lower-cased by Text.ToLower, so it inherits the ASCII-only limitation above.
- Strconv.IsFloatLiteral: hexadecimal floats (`0x1p-2`) are not modelled. They are rejected here, and ParseFloat accepts them. Go stops accumulating exponent digits once the exponent reaches 10000, while the model keeps the exact exponent. The two can disagree on literals with thousands of digits. For example, a 1 followed by 20000 zeros with exponent -100000 is accepted here but overflows in Go. Modelled: decimal literals, underscores between digits, exponents, inf, infinity, nan, and overflow to infinity (a range error).
- RegistersTool.ParseValue: because of the previous line, a hexadecimal float literal is classified as text instead of as a float.
- RegistersTool.Value: a float register keeps its literal text, not the `float64` it denotes, so "1.0" and "1.00" are different values here.
- The reply text of the registers tool (`fmt.Sprintf` with `%v`) is the abstract `Reply` datatype, and the listing is the map itself.
- `GetInt`, `GetFloat` and `GetString` of the registers tool are not modelled. They are float/int conversions and `%v` formatting.
- `Memory.Save` and `Memory.Load` are not modelled. They are `encoding/json` wrappers.
- control/lifecycle.go, tools/math.go, tools/storage.go, tools/code_execution.go, the neuralnet and python code, cmd/smol/main.go and tools/types.go are not part of this model. They are stubs, floating point, file-system and subprocess I/O, or unused declarations.
