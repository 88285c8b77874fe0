# gomock in Dafny

A model of the runtime and of the interface-selection logic of `gomock`, a
mocking library for Go. It comes in two halves.

**The runtime** (`gomock/gomock.go`, `gomock/mocker.go`) works as follows:
- A `Manager` keeps, for every pair (mock type, method name), an ordered list
  of invokers. `Init` creates a manager and binds it into a context.
- Each generated `NewMockerIJ` creates an empty builder `MockerIJ` (I
  parameters, J results, both between 1 and 5) and registers an invoker that
  shares it. The test then sets its `Handle`, `When` or `Return` closure.
- `Invoke` walks the list in registration order:
  - an invoker with a `Handle` closure claims the call when the closure
    answers `ok`;
  - any other invoker claims it when its `When` closure is set and answers
    true, and then the answer is what its `Return` closure gives.
  - The first claim wins. Without a manager, or outside a test binary, nothing
    is claimed.
- The generated method forwards the reply through `UnboxJ`. `UnboxJ` casts each
  slot to its static type, or falls back to the type's zero value. The method
  panics with "no mock code matched" when no invoker claimed the call.

**The generator** (`mockgen/mockgen.go`) works as follows:
- It parses the `-t` list into include and exclude sets (`!Name` excludes).
  `mock` then decides whether an interface name is mocked.
- It scans the directory's entries. Directories, the output file and
  `_test.go` files are skipped.
- In each file it names every import and picks the interface types that have
  at least one method entry and that `mock` accepts.
- Before emitting a method, it rejects more than 5 parameters or results.

Go's `interface{}` values are `Values.Value`: `Nil`, or a boxed dynamic type
with a payload. A static type is `Values.Type`. A type assertion `v.(T)`
succeeds when `Values.Asserts(v, T)` holds. The closures a test installs are
Dafny function values. They thread an environment `Env` (an `int`), which
stands for the state the closures capture, such as the call counter of the
repository's own test.

Module layout: `Wrappers` (Option, Result), `Values` (boxing, assertions,
`UnboxJ`), `Providers` (the `MockerIJ` builders and `InvokerIJ` adapters),
`GoMock` (`Manager`, contexts, `Invoke`), `Forwarding` (the generated
forwarding method and the repository's test scenarios), `GoStrings`
(`strings.Split`, `strings.HasSuffix`) and `MockGen` (the generator).

The 25 generated `MockerIJ`/`InvokerIJ` pairs differ only in arity. They are
modelled once, with the arity carried in a `Signature` (lists of parameter and
result types). `Providers.HasShim` says that the signature is one of the 25
defined shapes.

## Model

| member | source | states |
|---|---|---|
| Providers.Mocker.constructor | gomock/mocker.go:85-88 | a new builder has no `Handle`, `When` or `Return` closure set |
| Providers.Mocker.Handle | gomock/mocker.go:36-39 | sets the handle closure, or clears it when given a nil func (which puts the provider back into when/return mode), and leaves the other two untouched |
| Providers.Mocker.When | gomock/mocker.go:41-45 | sets (or, with a nil func, clears) the condition closure, leaves the others untouched, and returns the same builder for chaining |
| Providers.Mocker.Return | gomock/mocker.go:47-50 | sets (or, with a nil func, clears) the return closure and leaves the other two untouched |
| Providers.Invoker.constructor | gomock/mocker.go:88 | the invoker embeds the very builder it is given, so it sees every later configuration |
| Providers.Invoker.Mode | gomock/mocker.go:57-63 | handle mode exactly when a handle closure is set, else when/return mode |
| Providers.Invoker.Handle | gomock/mocker.go:65-69 | calling an unset handle closure panics (nil function call); otherwise the closure gets the first I arguments after they are cast, and the reply is well typed for the result types |
| Providers.Invoker.When | gomock/mocker.go:71-77 | an unset condition answers false and leaves the state alone; otherwise the closure's answer on the cast arguments |
| Providers.Invoker.Return | gomock/mocker.go:79-83 | ignores the arguments; an unset return closure panics; otherwise gives well-typed results |
| Values.AssertOr | gomock/gomock.go:118 | the comma-ok assertion keeps a value that asserts to the type and otherwise gives the type's zero value; the result always has the static type |
| Values.AssertableIsWellTyped | gomock/mocker.go:65-69 | arguments whose casts succeed are well typed for the parameter types |
| Values.Zeros | gomock/gomock.go:116-123 | the named results start as the zero values of their types |
| Values.Unbox | gomock/gomock.go:115-173 | `UnboxJ` always yields J values of the J static types |
| Values.UnboxWrongLength | gomock/gomock.go:116-122 | a reply of the wrong length gives all zero values |
| Values.UnboxSlot | gomock/gomock.go:126-133 | each slot is the value when it asserts to the slot's type, else that type's zero |
| Values.UnboxMismatchIsLocal | gomock/gomock.go:126-133 | a value of the wrong type zeroes its own slot and no other |
| Values.UnboxRoundTrip | gomock/gomock.go:115-173 | unboxing a well-typed reply gives it back unchanged |
| GoMock.Manager.constructor | gomock/gomock.go:46-48 | a new manager holds no invoker for any type and method |
| GoMock.Manager.AddMocker | gomock/gomock.go:75-84 | appends the invoker to the list of its (type, method) key, and every other key's list is unchanged; so `GetMockers` reads back the invokers added under a key in the order they were added, and nothing for a key never added to (with the constructor) |
| GoMock.GetManager | gomock/gomock.go:36-42 | null exactly when no manager is bound in the context chain; a manager binding is found at its own node, and values of other keys are looked through to the parent |
| GoMock.OtherValuesAreTransparent | gomock/gomock.go:36-42 | a context derived from the one `Init` returned, by any number of values of other keys, still yields `Init`'s manager |
| GoMock.Init | gomock/gomock.go:44-50 | a fresh, empty manager, bound into the returned context so that it is found there |
| GoMock.NewMocker | gomock/mocker.go:85-91 | the returned builder is fresh and empty; its key's list grows by exactly one fresh invoker that shares it; the rest of the manager is unchanged |
| GoMock.Step | gomock/gomock.go:93-105 | one turn of the loop: in handle mode the step claims exactly when the handler answers ok; in when/return mode it declines exactly when the condition is false; a claim is well typed for the result types; the only fault is a when/return provider whose condition holds but whose return closure is nil; a provider with neither handle nor condition declines and leaves the state alone |
| GoMock.Dispatch | gomock/gomock.go:91-107 | an unclaimed call has no results; the only panic in the loop is a nil closure call |
| GoMock.DispatchAppend | gomock/gomock.go:92-107 | a call settled by the leading invokers ignores the trailing ones; otherwise the trailing invokers continue from the leading ones' state |
| GoMock.FirstClaimWins | gomock/gomock.go:92-103 | after unclaiming invokers, the first invoker that claims decides the answer; later invokers are not consulted |
| GoMock.HandleDeclineFallsThrough | gomock/gomock.go:94-98 | a handle answering not-ok passes the call on to the next invoker |
| GoMock.WhenFalseFallsThrough | gomock/gomock.go:99-103 | a condition answering false passes the call on, and `Return` is not called |
| GoMock.UnconfiguredIsSkipped | gomock/gomock.go:99-103 | an invoker with neither handle nor condition is skipped without effect |
| GoMock.NothingConfiguredNothingClaimed | gomock/gomock.go:91-107 | if no invoker is configured, the call is unclaimed and the state unchanged |
| GoMock.DispatchTyped | gomock/gomock.go:91-107 | a claimed reply is well typed for the method's result types |
| GoMock.HandleModeIgnoresWhenReturn | gomock/gomock.go:93-98 | in handle mode the condition and return closures have no influence |
| GoMock.Invoke | gomock/gomock.go:86-108 | no manager or not testing: nil, false; otherwise exactly the first-claim dispatch over the registered list |
| GoMock.InvokeContext | gomock/gomock.go:110-113 | the same as `Invoke` with the manager bound in the context |
| Forwarding.Forwarded | mockgen/testdata/src_mock.go:19-25 | a claimed reply is unboxed into well-typed results; an unclaimed call panics with "no mock code matched"; a nil-closure panic propagates unchanged |
| Forwarding.ForwardRoundTrip | mockgen/testdata/src_mock.go:21-22 | when every invoker of the method has its result types, the caller receives exactly the reply that was claimed |
| Forwarding.Forward | mockgen/testdata/src_mock.go:19-25 | the generated method is `Invoke` followed by forwarding |
| Forwarding.CountingScenario | mockgen/testdata/src_mock_test.go:32-45 | with a handler that counts and answers `count > 1`, the first call panics and the second returns the nil results, with the counter at 2 |
| Forwarding.ConfigureAfterRegistration | gomock/mocker.go:85-91 | a closure set on the builder after registration is seen by the registered invoker |
| Forwarding.ClearHandler | gomock/mocker.go:36-39 | after `Handle(nil)`, a call the handler used to claim is answered by the provider's condition and return closure |
| Forwarding.FallThroughScenario | gomock/gomock.go:92-106 | an unconfigured invoker and a false condition are passed over to reach a handle that claims |
| GoStrings.Split | mockgen/mockgen.go:105 | `strings.Split` gives at least one part, and no part contains the separator |
| GoStrings.JoinSplit | mockgen/mockgen.go:105 | joining the parts at the separator gives the string back |
| GoStrings.SplitJoin | mockgen/mockgen.go:105 | splitting a join of separator-free parts gives the parts back |
| GoStrings.LastPieceIsSuffix | mockgen/mockgen.go:168-169 | the last part ends the string and holds no separator; a string without separators is its own last part |
| MockGen.Entries | mockgen/mockgen.go:101-105 | faults exactly on the empty list (index out of range) and on a lone quote (slice out of range); otherwise the entries hold no comma and join back, at commas, into the list without its first and last characters when it starts with a quote, or into the whole list |
| MockGen.ExcludesByBang | mockgen/mockgen.go:106-111 | a name is excluded exactly when the list has the entry `!name` |
| MockGen.SelectionByList | mockgen/mockgen.go:101-122 | `ParseOutcome` (the sets `parse` builds) and `ScanContext.Mock`/`Filter.Selects`: for an accepted list, when some entry lacks the `!`, exactly the listed names are included and mocked; otherwise the `!`-entries are the excludes and everything else is mocked |
| MockGen.EmptyListFaults | mockgen/mockgen.go:101-107 | `parse` faults on the empty list (the flag's default) and on an empty entry |
| MockGen.IntendedFilter | mockgen/mockgen.go:101-113 | the corrected reading agrees with `parse` wherever `parse` succeeds, and mocks every interface for the empty list |
| MockGen.ExcludeOnlyList | mockgen/mockgen_test.go:11 | "!ServiceV2" excludes ServiceV2 and nothing else |
| MockGen.QuotedExcludeOnlyList | mockgen/testdata/src.go:9 | the single-quoted form passed by `go:generate` is read as the unquoted list |
| MockGen.ScanContext.constructor | mockgen/mockgen.go:46-50 | a new context has empty include and exclude sets |
| MockGen.ScanContext.Parse | mockgen/mockgen.go:101-113 | faults exactly as the list dictates; the entries before the first empty one are added to the includes or, without `!`, to the excludes |
| MockGen.ScanContext.AddEntries | mockgen/mockgen.go:106-112 | the loop over the entries: faults exactly when an entry is empty, and the entries before the first empty one are added to the includes or, without `!`, to the excludes (`SetsSnoc` is the step) |
| MockGen.SelectWithList | mockgen/mockgen.go:115-122 | a fresh context with the list parsed mocks exactly what the list selects |
| MockGen.DefaultImportName | mockgen/mockgen.go:164-170 | `ImportName`: without an explicit name, an import is named by the whole part of its path after the last `/` (a `/`-free suffix that is the whole path or follows a `/`) |
| MockGen.ImportMapLastWins | mockgen/mockgen.go:160-172 | `ImportMap`: every import name maps to the path of its last import |
| MockGen.ImportMapKeys | mockgen/mockgen.go:160-172 | `ImportMap`: the map's keys are exactly the import names |
| MockGen.FileChosenExactly | mockgen/mockgen.go:174-198 | `Chosen` and the file scan: a file yields exactly the interface type specs of its type declarations that have a method entry and that `mock` accepts, each with its file and the file's imports; nothing returned lies outside the file's declarations |
| MockGen.ScanFile | mockgen/mockgen.go:153-199 | the loops compute the file's chosen interfaces in declaration order |
| MockGen.DirChosenSound | mockgen/mockgen.go:131-151 | each interface returned comes from a scanned entry, is an interface type spec declared in that entry's file, has a method entry, and is accepted by `mock` |
| MockGen.SkippedEntryContributesNothing | mockgen/mockgen.go:137-146 | `Scanned`: a directory, the output file or a `_test.go` file adds nothing, wherever it stands |
| MockGen.ScanDir | mockgen/mockgen.go:131-151 | the loop concatenates the chosen interfaces of the scanned entries in directory order |
| MockGen.TestdataDir | mockgen/mockgen_test.go:7-13 | over mockgen/testdata, with "!ServiceV2", the chosen interfaces are Service (src.go) then RepositoryV2 (src_bar.go) |
| MockGen.TestdataScan | mockgen/mockgen_test.go:7-13 | parsing the list and scanning the directory produce that result |
| MockGen.GuardAsWritten | mockgen/mockgen.go:206-216 | the guard passes exactly when every entry is a named method with at most 5 parameter fields and a result list of at most 5 fields, and then gives each method's arity; it fails only with the fault of some entry's checks in `MethodArityAsWritten` (an embedded interface has no `Names[0]`, too many parameter fields, a missing result list, too many result fields) |
| MockGen.GuardAdmitsMissingShim | mockgen/mockgen.go:206-216 | `Close() error` passes the guard with arity (0, 1), for which no builder exists |
| MockGen.CheckArity | mockgen/mockgen.go:206-216 | the corrected guard accepts exactly when every method has a builder, and then names an existing builder for each method; it never dereferences an absent result list (`MethodArity` rejects no parameters and no results with their own faults first) |
| MockGen.CheckArityRefinesGuard | mockgen/mockgen.go:206-216 | wherever the corrected guard accepts, it gives what the written guard gives; it refuses `Close() error` and `Stop(x int)`, the second of which the written guard dereferences |

## Left out

- `testing.Testing()` is the `testing` parameter of `Invoke`, `InvokeContext` and `Forward`. Nothing decides it.
- Strings are sequences of characters, while Go strings are bytes. `Entries` drops the last character of a quoted list where `parse` drops the last byte (mockgen.go:103). The two differ only for a list that opens with a quote, lacks the closing one, and ends in a multi-byte character (`'Aé` gives the entry "A" here and "A\xC3" in Go).
- `reflect.Type` is `Values.Type`. A context is a chain of values (`GoMock.Context`), of which only the manager binding is modelled. The other keys a context can hold are collapsed into `WithOther`.
- The `log.Printf` warning of `UnboxJ` on a wrong-length reply is left out (it is output only).
- Concurrency: the manager's map is unsynchronised in the source, and the model is sequential.
- Closures capture state through one `int` (`Env`), threaded through every call. Side effects other than on that state are not modelled.
- The interface type's "implements" relation is given as a set of implementing dynamic types per interface. Embedded interfaces and method sets are not modelled.
- A panic inside a test's closure is not modelled: closures are total functions. The model covers only the nil-closure panic and "no mock code matched".
- Providers.Invoker.Handle, Providers.Invoker.When: the source's `params[k].(Tk)` panics when an argument does not assert to its parameter type. The model makes this a precondition (`Invoker.Accepts`) instead of modelling the panic. A nil passed for an interface-typed parameter (such as the test's `nil` request, if its type were an interface) falls in that case.
- Go's generics are not modelled: the 25 `MockerIJ` types are one class indexed by a `Signature`, and the type parameters of an interface such as `RepositoryV2[T]` are dropped.
- `run`, `main`, the flag definitions, the set of import paths assembled for the output, the emitted text, `go/format`, and writing the output file are not modelled. The model stops at the list of chosen interfaces and the arity guard.
- Reading the directory and parsing the Go files are inputs: `ScanDir` takes the listing and a function from file name to parsed file. A read or parse error (a panic in the source) is not modelled. The `file` field holds the entry's name, not `filepath.Join(dir, name)`.
- Import paths are taken as the characters between the quotes, without Go's escape decoding (the source does not decode escapes either). The parser's guarantee that a path literal has both quotes is `MockGen.QuotedImports`.
- Parameter and result counts are counts of fields, as in the source: `a, b int` is one field. Unnamed parameters, which make the emitter's `param.Names[0]` fault, belong to the emitter and are left out with it.
- internal/mocker and internal/assert are not part of this model.

## Findings

| source | as written | input that shows it | evidently intended | confidence | as-written member | corrected member |
|---|---|---|---|---|---|---|
| mockgen/mockgen.go:101-113 | `parse` indexes `mockInterfaces[0]` and every entry's `s[0]` | `-t` left at its default "" (or "A,,B", or a trailing comma) faults with index out of range | an empty list mocks every interface and empty entries are skipped | not executed | MockGen.EmptyListFaults | MockGen.IntendedFilter |
| mockgen/mockgen.go:206-216 | the guard checks only the upper bounds 5 | `Close() error` (no parameters) passes the guard; the emitted `*gomock.Mocker01[, error]` and `gomock.NewMocker01[, error](...)` (mockgen.go:259-289) are not Go syntax, so `format.Source` fails and `run` panics at mockgen.go:76-79 before any file is written; an empty result list `()` fails the same way through `Unbox0[]` (mockgen.go:244-251). Such a method cannot be mocked at all. A method with no result list, `Stop(x int)`, is not rejected either: its nil `Results` is dereferenced at mockgen.go:213 and the generator panics | a method without parameters or without results (no result list or an empty one) is rejected by the guard with its own message | not executed | MockGen.GuardAdmitsMissingShim | MockGen.CheckArity |
