# Function providers and the `Error` valuer of a dependency-injection core

This project models two parts of the metadata core of a Go dependency-injection
framework, and proves properties of the model in Dafny.

1. **The function-provider builder** of package `core/model`. `Func(f, opts...)` and
   `funcProviderOf(f, opts...)` create a mutable builder around a value `f`.
   `Param(i, ...)`, `Return(i, ...)`, `InScope`/`SetScope`, `SetLocation` and
   `UpdateCallLocation` configure it in place. `Provider()` derives a provider
   snapshot:
   - one dependency per parameter of `f`, in order, with valuer `Param(i)`;
   - one component per return position except a trailing `error`, in order, with valuer `Index(i)`.

   `Validate()` reports every inconsistency of the configuration. `clone()`
   copies the builder. `Equal` compares the derived providers structurally.
2. **The constant `Error(err)` valuer** of package `core/valuer`. Its `Value` always
   yields a failed result. When `err` is nil it substitutes a non-nil error.
   It also has `String`, `Clone` and an `Equal` that accepts nil receivers.

Files:

- `types.dfy` (module `Types`): reflected Go types as a datatype, with
  `error` as the interface `Iface("error", {"Error"})`. It also holds symbols,
  scopes, locations, `Option`, and assignability ("implements") as method-set inclusion.
- `valuer.dfy` (module `Valuer`): errors, results, the `Valuer` variants, and the
  `Error` valuer (`ConstValuer`).
- `model.dfy` (module `Model`): on values. It holds the option datatypes and their
  folds, the configuration snapshot `Config`, derivation (`Derive`), and validation
  (`Findings`, `Validate`, with the independent `WellConfigured`). It also has
  provider equality and the lemmas relating them.
- `func_provider.dfy` (module `FuncProviders`): the builder as a class
  `FuncProvider`. Its fields are updated in place, and each method is specified
  by a function of the old snapshot. `Func` is here too, with client methods
  showing that clones are isolated.
- `examples_from_tests.dfy` (module `ProviderScenarios`): the configurations the
  tests build around `func(int, string, []int, rune) (*testStruct, int, error)`,
  and what derivation and validation give for each.

Modelling choices where the test files leave behaviour open:

- `ByTags`/`Tags`/`As` add to the set already configured. `ByName`/`Name`,
  `Optional` and `AsCollector` replace the earlier value. `Hide`/`Ignore` set their flag.
- An index given to `Param`/`Return` creates an entry even with no options. Negative indexes count as out of range.
- Validation returns every finding together, as a set. `None` is the sole success signal.
- A non-function value (nil included) is reported only as `NotCallable`. It derives no dependencies and no components.
- Wrapping nil gives one shared substitute error (`NilErrorSubstitute`), so two `Error(nil)` valuers are `Equal` and yield the same result.
- Equality compares, position by position, every field of the dependencies and the components except their valuers. It also compares the scope.

## Model

| member | source | states |
|---|---|---|
| `Types.EmptyInterfaceAcceptsAll` | core/model/func_provider_test.go:39-46 | every type can be exposed as an empty interface such as `testInterface` |
| `Types.ErrorNeedsErrorMethod` | core/model/func_provider_test.go:319-323 | a type other than `error` can be exposed as `error` exactly when it has an `Error` method |
| `Types.AddAll` | core/model/func_provider_test.go:54 | adding tags gives a non-nil set holding exactly the old elements and the new ones |
| `Types.AddOneToNil` | core/model/func_provider_test.go:90 | one tag added to a nil set gives exactly the set of that tag (`newSymbolSet(tag2)`) |
| `Valuer.Value` | core/valuer/error_test.go:11-27 | `Value` always reports an error through `AsError`; it `Is` the wrapped error, or is the substituted non-nil error when nil was wrapped |
| `Valuer.AsError` | core/valuer/error_test.go:15-16 | `AsError` reports an error exactly for a failed result, and it is the carried error |
| `Valuer.ErrorValuer` | core/valuer/error_test.go:12-14 | `Error(err)` with a non-nil `err` yields a valuer whose result fails with exactly `err` |
| `Valuer.String` | core/valuer/error_test.go:29-33 | `String()` is "Error: " followed by the message of the reported error |
| `Valuer.StringOfWrappedError` | core/valuer/error_test.go:29-33 | a valuer wrapping the error "this is error" prints as "Error: this is error" |
| `Valuer.Clone` | core/valuer/error_test.go:35-43 | the clone is structurally equal to the original and `Equal` to it in both directions |
| `Valuer.EqualIsEquivalence` | core/valuer/error_test.go:46-51 | `Equal` is reflexive, symmetric and transitive, nil valuers included |
| `Valuer.EqualValuersYieldSameResult` | core/valuer/error_test.go:46-51 | equal valuers yield the same result for every input |
| `Valuer.DifferentErrorsAreUnequal` | core/valuer/error_test.go:53-59 | valuers wrapping different errors are not `Equal` |
| `Valuer.NilValuerEquality` | core/valuer/error_test.go:61-68 | two nil valuers are `Equal`; a nil and a non-nil valuer are unequal in either order |
| `Model.NilOptionsAreNoOps` | core/model/func_provider_test.go:33-42 | applying the options of `Func` with nil ones among them equals applying them with the nils removed (the trailing `nil` at line 41, and at line 129) |
| `Model.NilParamOptionsAreNoOps` | core/model/func_provider_test.go:35-38 | likewise for parameter options; no test passes a nil parameter option, so this is stated as for the other two option lists |
| `Model.NilReturnOptionsAreNoOps` | core/model/func_provider_test.go:637-649 | likewise for return options (`Return(0, Name("r1"), nil)` still names the component) |
| `Model.WithScope` | core/model/func_provider_test.go:245-250 | setting a nil scope yields `GlobalScope`, a given scope is kept, and nothing else changes |
| `Model.ApplyOptionsKeepLocation` | core/model/func_provider_test.go:681-689 | options never change the configured value or the location, so `funcProviderOf` leaves the location unset |
| `Model.OutputCount` | core/model/func_provider_test.go:84-85 | a return position becomes a component exactly when it is not a trailing `error` |
| `Model.DependenciesFrom` | core/model/func_provider_test.go:48-79 | one dependency per remaining parameter, in parameter order, each built from that parameter's type and options |
| `Model.ComponentsFrom` | core/model/func_provider_test.go:84-103 | one component per output position, in return order, each built from that return's type and options |
| `Model.Derive` | core/model/func_provider_test.go:44-112 | dependency count equals arity, with valuer `Param(k)` and the configured or default fields; a collector over `[]T` depends on `T`. Component count equals outputs without a trailing `error`, with valuer `Index(k)` and the configured or default fields. A non-function derives neither; scope and location are carried over |
| `Model.Findings` | core/model/func_provider_test.go:253-324 | a non-function value gives the single finding `NotCallable`; `NoUsableOutput` is reported exactly when a function has no output |
| `Model.ParamIndexCategory` | core/model/func_provider_test.go:283-287 | a parameter index configured outside the signature is reported, and only such an index is |
| `Model.CollectorCategory` | core/model/func_provider_test.go:289-293 | a collector on a non-slice parameter is reported, and only such a collector is |
| `Model.ReturnIndexCategory` | core/model/func_provider_test.go:295-299 | a return index configured past the last return is reported, and only such an index is |
| `Model.ReservedCategory` | core/model/func_provider_test.go:301-305 | a return index on the trailing `error` slot is reported, and only such an index is |
| `Model.ExposedCategory` | core/model/func_provider_test.go:319-323 | an `As` type the output's type cannot be assigned to is reported, and only such a type is |
| `Model.FindingsEmptyIff` | core/model/func_provider_test.go:253-324 | there are no findings exactly when the independent `WellConfigured` predicate holds |
| `Model.Validate` | core/model/func_provider_test.go:44-46 | `Validate` returns nil exactly for a well-configured snapshot; otherwise it returns every finding, and there is at least one |
| `Model.EqualIsEquivalence` | core/model/func_provider_test.go:849-853 | provider equality is reflexive, symmetric and transitive |
| `Model.OutOfRangeParamIsInert` | core/model/func_provider_test.go:520-531 | configuring a parameter index outside the signature leaves dependencies, components and equality unchanged |
| `Model.NonOutputReturnIsInert` | core/model/func_provider_test.go:609-635 | configuring a return index past the end, or on the `error` slot, leaves the derived lists and equality unchanged |
| `Model.ParamRenameBreaksEquality` | core/model/func_provider_test.go:855-860 | renaming a parameter makes the derived providers unequal in both directions |
| `Model.ReturnRenameBreaksEquality` | core/model/func_provider_test.go:862-867 | renaming an output makes the derived providers unequal in both directions |
| `Model.RenameWithInertReturnBreaksEquality` | core/model/func_provider_test.go:869-875 | renaming a parameter and also configuring a return index that is no output position leaves the providers unequal in both directions |
| `Model.OutOfRangeParamInvalid` | core/model/func_provider_test.go:283-287 | for a function, any parameter index outside its signature makes validation fail with `ParamIndexOutOfRange` |
| `Model.NonOutputReturnInvalid` | core/model/func_provider_test.go:295-305 | for a function, a return index past the end fails validation with `ReturnIndexOutOfRange`; one on the `error` slot fails with `ReturnIndexReserved` |
| `FuncProviders.FuncProvider.Of` | core/model/func_provider_test.go:145-153 | `funcProviderOf` applies the options in order to an unconfigured builder and records no location |
| `FuncProviders.FuncProvider.ApplyOption` | core/model/func_provider_test.go:33-42 | one option of `Func` changes the builder as the option fold says |
| `FuncProviders.FuncProvider.Param` | core/model/func_provider_test.go:464-531 | `Param(i, opts)` applies the options, in order, on top of parameter `i`'s existing or default options; nothing else changes |
| `FuncProviders.FuncProvider.Return` | core/model/func_provider_test.go:534-649 | `Return(i, opts)` does the same for return position `i` |
| `FuncProviders.FuncProvider.SetScope` | core/model/func_provider_test.go:652-663 | `SetScope(nil)` resolves to `GlobalScope`; only the scope changes |
| `FuncProviders.FuncProvider.SetLocation` | core/model/func_provider_test.go:667-671 | `SetLocation(loc)` sets the location, and only it |
| `FuncProviders.FuncProvider.UpdateCallLocation` | core/model/func_provider_test.go:673-697 | an already-set location is kept; otherwise the given location, or the caller's position when none is given, is recorded |
| `FuncProviders.FuncProvider.Clone` | core/model/func_provider_test.go:788-792 | the clone is a new object with the same configuration, `Equal` to the original in both directions |
| `FuncProviders.Func` | core/model/func_provider_test.go:106-111 | `Func` is `funcProviderOf` plus the caller's position as location |
| `FuncProviders.UpdateIsolation` | core/model/func_provider_test.go:794-809 | reconfiguring params, returns, scope and location of a clone leaves the original's configuration and derived provider unchanged |
| `FuncProviders.CloneOfCloneIsolation` | core/model/func_provider_test.go:811-827 | reconfiguring a clone changes neither its source nor a clone taken from it |
| `FuncProviders.RenamedCloneIsUnequal` | core/model/func_provider_test.go:855-860 | a clone with a renamed parameter is unequal to its source, both ways |
| `FuncProviders.RenamedReturnCloneIsUnequal` | core/model/func_provider_test.go:862-867 | a clone with a renamed output is unequal to its source, both ways |
| `FuncProviders.FakeComponentCloneIsUnequal` | core/model/func_provider_test.go:869-875 | a clone with a renamed parameter and an extra return index on a non-output position is unequal to its source, both ways |
| `ProviderScenarios.TestParamOptions` | core/model/func_provider_test.go:35-38 | the test's parameter options build the expected name, tags, optional and collector settings |
| `ProviderScenarios.TestReturnOptions` | core/model/func_provider_test.go:39 | `Name("r1"), Tags(tag2), Hide(), Ignore(), As(testInterface)` build the expected return options |
| `ProviderScenarios.TestOptionsBuildTestConfig` | core/model/func_provider_test.go:33-42 | the "normal value" options, with a trailing nil option, build the expected configuration |
| `ProviderScenarios.TestConfigIsValid` | core/model/func_provider_test.go:44-46 | that configuration passes validation |
| `ProviderScenarios.TestConfigDependencies` | core/model/func_provider_test.go:48-79 | it derives the four expected dependencies; the collector `c1` over `[]int` has type `int` |
| `ProviderScenarios.TestConfigComponents` | core/model/func_provider_test.go:84-103 | it derives the two expected components, the trailing `error` excluded |
| `ProviderScenarios.TestProviderIsValid` | core/model/func_provider_test.go:24-112 | the whole "normal value" test on the snapshot `Func` builds from a caller position: valid, valuer `Func(f)`, scope `scope1`, location the caller's, the four dependencies and the two components |
| `ProviderScenarios.FakeComponentIsUnequal` | core/model/func_provider_test.go:869-875 | `Param(0, ByName("a2"))` plus `Return(2, Name("r"))` on the test configuration gives a provider unequal to the original, both ways |
| `ProviderScenarios.NilFunctionIsInvalid` | core/model/func_provider_test.go:114-135 | a nil function fails validation whatever the options |
| `ProviderScenarios.NonFunctionIsInvalid` | core/model/func_provider_test.go:254-281 | a value of any non-function type fails validation with exactly `NotCallable` |
| `ProviderScenarios.ParamFourIsInvalid` | core/model/func_provider_test.go:283-287 | `Param(4, ByName("p4"))` fails validation |
| `ProviderScenarios.CollectorOnIntIsInvalid` | core/model/func_provider_test.go:289-293 | `Param(0, AsCollector(true))` on the `int` parameter fails validation |
| `ProviderScenarios.ReturnThreeIsInvalid` | core/model/func_provider_test.go:295-299 | `Return(3, Name("p4"))` fails validation |
| `ProviderScenarios.ReturnTwoIsReserved` | core/model/func_provider_test.go:301-305 | `Return(2, Name("p2"))` on the `error` slot fails validation |
| `ProviderScenarios.NoOutputIsInvalid` | core/model/func_provider_test.go:307-317 | `func() error` and `func()` fail validation |
| `ProviderScenarios.ExposedAsErrorIsInvalid` | core/model/func_provider_test.go:319-323 | exposing `*testStruct` as `error` fails validation |

## Left out

- `ApplyModule`, `NewModuleBuilder` and `AllComponents` (core/model/func_provider_test.go:353-382): the module builder's code is not part of this model.
- Formatting a provider with `%v`/`%+v` (core/model/func_provider_test.go:326-340): Go's printed form of reflected types and of `fmt` verbs is not modelled.
- Pointer identity is not modelled, beyond `fresh` for `Clone`. This covers `assert.Same` on a dependency's consumer or a component's provider, `Valuer() == Valuer()` on one snapshot, and `v1 == v2` for cloned valuers. Dependencies and components carry no back-reference to their provider.
- Invoking the callable: the `Func` valuer and the `Value` of the `Param`/`Index` valuers are not modelled, only their identity as data. The callable is a reflective foreign call.
- Go reflection: types are an abstract datatype. Implementing an interface is method-set inclusion by method name. It ignores method signatures, the pointer/value receiver distinction, and named non-struct types.
- Capturing the caller's file and line (`UpdateCallLocation(nil)`, `Func`): the caller's position is an input parameter, because it reads the runtime call stack.
- `NewSymbol`/`NewScope` allocation: symbols and scopes carry explicit identities.
- Error wrapping: errors are identities with messages, and `errors.Is` is equality. The message of the error substituted for nil is not visible in the tests; the model uses a fixed text.
- `Dependencies().Iterate` with early stop and `Components().ToArray()`: the derived lists are plain sequences.
- `Validate` returns the set of findings as data; the combined error value and its message text are not modelled.
- `FuncProviders.FuncProvider.Clone`: the per-index option records are values here, so the deep copy of the option maps is value semantics. Aliasing between a builder and its option records is not modelled.
