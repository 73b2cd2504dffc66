# Strategy selection of the Python actor code generator

This project models, in Dafny, the decision layer of the protoc plugin that
generates Python actor code. For every `.proto` file of a compilation request
the plugin classifies the file through a shared `GenerationContext` (is it a
remote dependency, is it marked local, does it declare services), picks one
strategy by ascending priority, and runs that strategy's action, which returns
the generated files and may set the context's `has_local_workload` flag. After
all files, `DefaultClientWorkloadStrategy.should_generate` decides whether a
fallback client workload is still needed.

Modules:

- `Strategies` (`strategies.dfy`): the descriptor values (`FileDescriptor`,
  `ServiceDescriptor`, an opaque `MethodDescriptor`), `GeneratedFile`,
  `RemoteServiceInfo`, path normalisation (`Normalize`, backslash to slash)
  and the `GenerationContext` class. Its three lookup inputs are `const`
  fields, since nothing reassigns them; `hasLocalWorkload` is the one mutable
  field. So the three lookup predicates and every strategy predicate read no
  mutable state, and the flag cannot influence classification.
- `ConcreteStrategies` (`concrete_strategies.dfy`): the abstract strategy base
  class becomes the closed datatype `Strategy` with four variants, each with
  `Priority`, `Name` and `CanHandle`. Each `generate` is a method, and the
  two looping ones keep the source's loop over services. The module also holds
  `ShouldGenerate`, `GenerateDefaultWorkload` and `CreateDefaultStrategies`.
  The hidden template renderers are the fields of an `Emitter` value: each is
  an arbitrary total function, passed in as a parameter.
- `Selector` (`selector.dfy`): `StrategySelector`, whose constructor keeps
  `SortByPriority(strategies)`. This is a stable sort, as Python's `sorted`
  is; the model uses insertion sort. `SelectStrategy` is the source's scan
  with early return, and it is proved equal to the specification function
  `FirstHandling`.
- `Run` (`run.dfy`): a driver that processes all files and then consults the
  fallback once. The plugin's main loop is not part of this model. This driver
  is not a model of it: it only serves to state how the flag accumulates and
  when the fallback fires.

One consequence is proved as stated, not corrected. `LocalServiceStrategy`
names every actor file after the package whenever the package is non-empty.
So a file with a package and two or more services yields several generated
files with the same name (`ActorFileNameShape`). The source comment at
`concrete_strategies.py:167-169` says this naming is deliberate.

## Model

| member | source | states |
|---|---|---|
| `Strategies.Normalize` | framework_codegen_python/strategies.py:52 | the normalised name has the same length, contains no backslash, has `/` wherever the input had `\` and keeps every other character |
| `Strategies.NormalizeIdempotent` | framework_codegen_python/strategies.py:57 | normalising twice equals normalising once |
| `Strategies.NormalizeFixesSlashPaths` | framework_codegen_python/strategies.py:52-53 | a name without backslashes is left unchanged |
| `Strategies.NormalizeEqualIffSeparatorEquivalent` | framework_codegen_python/strategies.py:50-58 | two names normalise to the same path if and only if they differ only in which separator (`/` or `\`) they use |
| `Strategies.GenerationContext.constructor` | framework_codegen_python/strategies.py:39-48 | the context stores the remote map, the local set and the remote services unchanged, and `hasLocalWorkload` starts false |
| `Strategies.IsRemoteIffKeyMatches` | framework_codegen_python/strategies.py:50-53 | `is_remote` holds iff some key of the remote map has no backslash and spells the file's name up to separator style |
| `Strategies.IsLocalIffEntryMatches` | framework_codegen_python/strategies.py:55-58 | `is_local` holds iff some local-set entry has no backslash and spells the file's name up to separator style; an entry that contains a backslash never matches, since only the file name is normalised |
| `Strategies.GenerationContext.HasServices` | framework_codegen_python/strategies.py:60-62 | holds iff the file declares at least one service |
| `Strategies.ClassificationIgnoresSeparatorStyle` | framework_codegen_python/strategies.py:50-58 | two files whose names differ only in separators are equally remote and equally local |
| `ConcreteStrategies.PrioritiesAreFixed` | framework_codegen_python/concrete_strategies.py:30-199 | the priorities are 1, 2, 3 and 999 for EmptyLocalWorkload, RemoteService, LocalService and DefaultClientWorkload, and no two strategies share one |
| `ConcreteStrategies.PredicatesAreExclusive` | framework_codegen_python/concrete_strategies.py:38-147 | EmptyLocalWorkload and LocalService never both match; a remote file matches neither; DefaultClientWorkload matches no file |
| `ConcreteStrategies.RemoteServiceDependsOnlyOnCatalog` | framework_codegen_python/concrete_strategies.py:88-89 | RemoteService's predicate gives the same answer for any two files whose names agree up to separators and any two contexts with the same remote keys, whatever the package, services or local set |
| `ConcreteStrategies.ActorFileNameShape` | framework_codegen_python/concrete_strategies.py:170-171 | an actor file name ends in `_service_actor.py`; with a non-empty package it is the same for every service; with an empty package, services with different snake-case names get different file names |
| `ConcreteStrategies.GenerateEmptyLocalWorkload` | framework_codegen_python/concrete_strategies.py:45-65 | returns exactly the one workload file rendered from package, file name and remote services, and leaves `hasLocalWorkload` true |
| `ConcreteStrategies.GenerateRemoteService` | framework_codegen_python/concrete_strategies.py:91-118 | returns one extensions file per service, in service order, possibly none, and does not modify the context |
| `ConcreteStrategies.GenerateLocalService` | framework_codegen_python/concrete_strategies.py:149-182 | returns one file per service, in order; file i holds the actor code for service i and is named from the snake-cased package, or the service name when the package is empty, plus `_service_actor.py`; leaves `hasLocalWorkload` true |
| `ConcreteStrategies.Generate` | framework_codegen_python/strategies.py:82-98 | every action returns the number of files fixed for its strategy (one, one per service, or none for DefaultClientWorkload), sets the flag exactly for EmptyLocalWorkload and LocalService, and never clears it |
| `ConcreteStrategies.ShouldGenerate` | framework_codegen_python/concrete_strategies.py:217-223 | the fallback is never due without remote services, and never once a local workload exists |
| `ConcreteStrategies.GenerateDefaultWorkload` | framework_codegen_python/concrete_strategies.py:225-239 | the fallback is the single file the client-workload renderer builds from the whole remote-service catalog |
| `ConcreteStrategies.CreateDefaultStrategies` | framework_codegen_python/concrete_strategies.py:242-248 | the default list has three strategies, EmptyLocalWorkload, RemoteService and LocalService, in strictly ascending priority, and does not contain DefaultClientWorkload |
| `ConcreteStrategies.UnclassifiedFileMatchesNothing` | framework_codegen_python/concrete_strategies.py:38-147 | a file that is not remote, not local and has no services matches no default strategy |
| `Selector.SortByPrioritySortsAndPermutes` | framework_codegen_python/strategies.py:127 | the sorted list is ordered by ascending priority and is a permutation of the input |
| `Selector.SortByPriorityIsStable` | framework_codegen_python/strategies.py:127 | for every priority, the strategies with that priority appear in the sorted list in their input order |
| `Selector.StrategySelector.constructor` | framework_codegen_python/strategies.py:120-127 | the selector keeps the stable priority sort of its input, sorted and a permutation of it |
| `Selector.FirstHandlingIsEarliestMatch` | framework_codegen_python/strategies.py:144-156 | the selected strategy is at the earliest position whose predicate holds, every earlier strategy's predicate is false, and none is selected iff no predicate holds |
| `Selector.SelectsLeastPriorityMatch` | framework_codegen_python/strategies.py:120-156 | selecting from the sorted list yields a strategy of the input that can handle the file and has the least priority among all input strategies that can; none is selected iff no input strategy can handle the file |
| `Selector.StrategySelector.SelectStrategy` | framework_codegen_python/strategies.py:129-156 | the scan with early return yields exactly the first matching strategy of the sorted list, or none |
| `Selector.DefaultSelection` | framework_codegen_python/concrete_strategies.py:242-248 | with the default strategies a remote file gets RemoteService, a non-remote file with services LocalService, a non-remote service-less local file EmptyLocalWorkload, and any other file no strategy |
| `Run.DefaultSelectsLocalWorkload` | framework_codegen_python/concrete_strategies.py:143-180 | with the default strategies, a file leads to a local workload iff it is not remote and declares services or is marked local |
| `Run.FlagAfterIsAnyLocalWorkload` | framework_codegen_python/concrete_strategies.py:45-182 | folding the per-file flag updates over the files gives true iff the flag started true or some file selected EmptyLocalWorkload or LocalService |
| `Run.RunOutcomeIgnoresFileOrder` | framework_codegen_python/concrete_strategies.py:185-223 | the final flag and the fallback decision of a run are the same for any reordering of the files |
| `Run.RunGeneration` | framework_codegen_python/concrete_strategies.py:185-223 | driver, not source: the final flag and the fallback decision are the fold `FlagAfter` and `FallbackAfter` over the files; after all files, the flag is true iff it was already true or some file selected EmptyLocalWorkload or LocalService; the fallback fires iff remote services exist and the flag is still false, and then adds exactly one client workload at the end; the output length is the sum of the selected strategies' file counts, plus one for the fallback |

## Left out

- The `generators` module (template rendering and `to_snake_case`) is not part of this model. Each renderer is an arbitrary total function in `Emitter`, so no property of generated text is claimed.
- A renderer that raises an exception is not modelled. In the source such an exception propagates and aborts the whole run; here every renderer returns a value.
- A renderer that returns a dictionary without `name` or `content` would raise an exception in the source. Renderers here always return a `GeneratedFile`, so that failure path is not modelled.
- The diagnostics written to stderr are not modelled. They are logging only and do not affect results.
- Parsing of the protoc request and the `plugin_pb2` descriptor classes are left out. Descriptors are plain values: package, name and services, and each service has a name and opaque methods.
- The `abc` abstract-method machinery is replaced by the closed `Strategy` datatype, so strategies defined outside the four variants cannot be expressed.
- The plugin's main loop and the writing of the protoc response are not part of this model. `Run.RunGeneration` is a harness for stating properties.
- The contents of `RemoteServiceInfo` (route keys, actor type) are carried through unchanged and never inspected.
- `GenerationContext`'s three lookup inputs are `const`. The source could reassign these attributes, but nothing in it does.
- `Strategy.Name` is carried for diagnostics only, and no property of it is stated.
