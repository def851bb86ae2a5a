# contextprovider, modelled in Dafny

The Go package `contextprovider` lets a provider hand a `context.Context` to
chosen receiver functions without changing their signatures. A package-level
map, `contextMap`, goes from a function's symbol name to the stored context:

- `Provide(ctx, f, fs...)` writes the context under the name of every function argument.
- `Inject()` and `InjectValue[T](key)`, called inside a receiver, read the receiver's own entry. Each also returns a release handle.
- `FreeContext(fs...)` deletes entries explicitly.

This project models that registry and proves the protocol's guarantees:

- Each key keeps the last context written to it.
- Provide leaves every key it does not name unchanged.
- Reads never mutate the registry.
- A release handle deletes exactly one key.
- Provide reports an error if and only if the context is nil or some argument is not a function.

Files:

- `wrappers.dfy`: `Option`.
- `contexts.dfy`: the platform context, reduced to what the registry uses. It is a chain of `WithValue` bindings over `Background`, with values tagged by their dynamic type. `int64` is a bounded newtype, and a named string type is distinct from `string`.
- `contextprovider.dfy`: the core.
  - Key resolution: `FuncKey`, `InjectKey`.
  - Pure functions over the table that say what each loop and lookup computes: `Stored`, `NotFunctionPositions`, `Provided`, `Injected`, `InjectedValue`, `Released`, `Freed`.
  - The `Registry` class, whose `entries: map<string, Context>` field is `contextMap`. Its methods carry the source's loops and updates.
  - The lemmas.
- `scenarios.dfy`: the repository's tests, restated as methods on a fresh `Registry`. Each method's ensures clauses are what the test observes.

Runtime introspection is an oracle supplied by the caller:

- A function argument arrives already resolved to its symbol name, `Fn(name)`. A non-function arrives as `NotFn`. This stands for `reflect` and `runtime.FuncForPC` in `getFuncKey` and `getKey` (contextprovider.go:106-116).
- The receiver's identity arrives as `frame: Option<string>`, the symbol name of the inspected stack frame. `None` means `runtimeCaller` reported failure, and `getInjectKey` (contextprovider.go:98-104) then yields the empty key. The test seam that stubs the caller is exactly this `None`.

How the model follows the code:

- A non-function argument resolves to the empty key, as `getFuncKey` does (contextprovider.go:109). `FreeContext` ignores the error but still calls `freeFunc` with that key (contextprovider.go:79-80). So `FreeContext(NotFn)` deletes the entry stored under `""`, if there is one. The model keeps this behaviour: `Resolves` counts a non-function as resolving to `""`.
- `InjectKey` returns `""` both when the stack cannot be inspected and when the frame's symbol name is empty. `inject` treats both as "no context".
- Provide's joined error is modelled as `NotFunctions(positions)`: one entry per non-function argument, in argument order. The message text is not modelled.

## Model

| member | source | states |
|---|---|---|
| ContextProvider.FuncKey | contextprovider.go:106-112 | a function argument's key is its symbol name; the key is empty exactly for a non-function (the error case) or a function with an empty symbol name |
| ContextProvider.InjectKey | contextprovider.go:98-104 | the caller's key is the inspected frame's symbol name; it is empty exactly when the stack cannot be inspected or the name is empty |
| ContextProvider.Registry.constructor | contextprovider.go:15 | the registry starts empty |
| ContextProvider.Registry.Provide | contextprovider.go:21-44 | a nil context returns `NilContext` and changes nothing; otherwise the new table is the left-to-right store of the context under each function argument's key; no error exactly when the context is non-nil and every argument is a function |
| ContextProvider.Registry.Inject | contextprovider.go:84-96 | (`Inject`, contextprovider.go:49-51, is this call) ok exactly when the caller's key is non-empty and present; then the stored context and a handle deleting that key, otherwise the background context and the no-op handle; reads only |
| ContextProvider.Registry.InjectValue | contextprovider.go:56-63 | returns the caller's value of the requested type under the key, else the zero value with ok false; the release handle is inject's handle even on a key or type miss; reads only |
| ContextProvider.ContextValue | contextprovider.go:66-72 | ok exactly when the context binds the key to a value of the requested type, and then that value; otherwise the zero value of the type; the result always has the requested type |
| ContextProvider.Registry.Free | contextprovider.go:93-95 | calling a release handle: the no-op leaves the table alone, the real handle deletes its one key |
| ContextProvider.Registry.FreeFunc | contextprovider.go:118-120 | deletes exactly one key, present or absent |
| ContextProvider.Registry.FreeContext | contextprovider.go:77-82 | never fails; afterwards a key is present exactly when it was present before and no argument resolves to it, with its old context |
| ContextProvider.StoredAt | contextprovider.go:31-38 | after the loop a key is present iff it was present or is named by a function argument; named keys hold the given context whatever arguments came before or after; others keep their entry |
| ContextProvider.NotFunctionPositionsExact | contextprovider.go:31-36 | the recorded errors are exactly the non-function arguments, one each, in argument order |
| ContextProvider.NoPositionsIffAllFunctions | contextprovider.go:33-35 | the loop records no error exactly when every argument is a function |
| ContextProvider.ProvideErrorIff | contextprovider.go:22-43 | Provide's error is absent iff the context is non-nil and all arguments are functions; a not-a-function error lists exactly the offending positions |
| ContextProvider.ProvideFrame | contextprovider.go:26-37 | all keys of one Provide share one context, keys not named keep their entries, and the key set grows by the named keys only |
| ContextProvider.InjectAfterProvide | contextprovider.go:89-95 | a receiver named in Provide retrieves that context with ok true and a handle deleting its own key |
| ContextProvider.InjectOutsideReceivers | contextprovider.go:85-92 | a caller not named in Provide sees what it saw before the call |
| ContextProvider.ProvideOverwrites | contextprovider.go:37 | a second Provide for the same receiver replaces the first context (last write wins) |
| ContextProvider.ReleaseAfterInject | contextprovider.go:93-95 | the handle from a successful inject deletes exactly the caller's key; a failed inject's handle changes nothing; afterwards the caller finds no context |
| ContextProvider.ReleaseIndependent | contextprovider.go:118-120 | releasing one receiver's entry leaves every other receiver's retrieval as it was |
| ContextProvider.FreedAt | contextprovider.go:78-81 | FreeContext's loop removes the key of every argument and nothing else, and keeps remaining entries unchanged |
| ContextProvider.FreeContextClears | contextprovider.go:77-82 | after FreeContext(f) a retrieval inside f fails; a receiver that no argument resolves to is unaffected |
| ContextProvider.ContextValueOfBinding | contextprovider.go:67 | a value bound under a key is extracted at its own type |
| ContextProvider.ContextValueWrongType | contextprovider.go:67-69 | at any other type the innermost binding yields the zero value with ok false, even if an outer binding has that type |
| Scenarios.ReceiverScenario | contextprovider_test.go:26-70 | the intermediate function does not see the value; the receiver gets 42 once, frees it, then gets the zero value |
| Scenarios.TwoReceiversScenario | contextprovider_test.go:105-128 | one Provide for two receivers; freeing in the first leaves the second's value in place |
| Scenarios.ExplicitFreeScenario | contextprovider_test.go:88-102 | FreeContext on the receiver makes its next Inject return the background context |
| Scenarios.RejectionScenario | contextprovider_test.go:130-140 | a non-function receiver and a nil context are both reported |
| Scenarios.StubbedCallerScenario | contextprovider_test.go:17-24 | with the stack introspection failing, Inject returns the background context, ok false and the no-op handle although an entry is stored |
| Scenarios.ContextValueScenario | contextprovider_test.go:142-152 | ContextValue finds 42 at int64 and refuses it at string |

## Left out

- Stack introspection: `runtime.Caller` with skip 3, `runtime.FuncForPC` and `reflect.ValueOf(f).Kind()/Pointer()` (contextprovider.go:13, 99, 107-115) are the oracle above. Frame depth, and the fact that two closures from the same code share one name, are not modelled.
- Context internals: deadlines, cancellation and `Done()` are not modelled. Only `Background` and `WithValue` exist, and `Value` is their innermost-binding lookup.
- The context is stored by pointer (`&ctx`, contextprovider.go:26). Contexts are immutable, so the model stores the value; all keys written by one call hold equal values.
- ContextValue: a nil context passed directly to `ContextValue` makes Go call `Value` on a nil interface (contextprovider.go:67) and panic; the model's `Context` has no nil value, so that panic is not modelled. Through the registry it cannot arise, because Provide refuses a nil context (contextprovider.go:22-24).
- `ContextValue` and `InjectValue` take concrete types only (int64, string, named string types). Interface type arguments such as `any` are not modelled.
- Error message text and the `errors.Join` formatting are not modelled. Only the kind of error and the offending positions are kept.
- Concurrency: the map is unsynchronised in the source. The model is sequential.
- The test seam `StubRuntimeCaller` (export_test.go) and the demo in example_test.go are not part of this model, beyond the `None` frame that the seam produces.
