# Sample trace generator, modelled in Dafny

The sample trace generator builds a topology of applications, services and
operations, and from it generates distributed traces: lists of spans, one
per operation visited, with parent links, time windows and identity tags.
This project models its two halves and proves what each promises.

**The topology builder** has two versions:
- `Topology.java`, modelled in `references.dfy`, `random_calls.dfy`, `synthesis.dfy` and `topology.dfy`;
- the older list-based `Configuration.java`, modelled in `configuration.dfy`.

The builder takes a parsed configuration, or synthesizes a random one from word lists. It then:
- defaults names and applications from map keys;
- resolves call placeholders to the operations they name;
- adds random calls (the random path only);
- rejects call graphs with a cycle.

**Trace generation** is in `operation.dfy`, `trace_shape.dfy`, `service.dfy`, `application.dfy` and `span.dfy`:
- An operation emits its own span, then the traces of its calls in order. Each call gets a time window inside its caller's.
- A service adds its base latency and tags to every span.
- An application picks a service.
- `Span.Builder` fills in missing names, identity tags and the error tag.

**How the topology is represented.** The object graph becomes an arena (`model.dfy`):
- `Apps` maps application names to applications, and each application maps service names to services.
- A service keeps its operations in an ordered sequence.
- A call is either `Bound(OpRef(app, svc, index))`, an edge to the operation at that position, or `Pending(placeholder)`, an unresolved reference as the configuration wrote it.
- Shared Java objects become shared positions. Lombok's value equality becomes equality of positions.

**Randomness, the clock and ids are inputs:**
- `RandomSource` (`common.dfy`) is an object whose `NextInt(bound)` consumes one draw of a stream and returns it modulo `bound`.
- Trace generation takes a `TraceEnv`, which holds the trace id, the time "now", the root budget draw and a stream of per-span draws.

**Cycle check.** `CheckCalls` (`model.dfy`) is the recursive `checkCalls`, with the ancestor path as a set of positions. It is proved to fail exactly when some operation reaches itself (`Acyclic`).

**Behaviour of the code worth knowing:**
- In `Topology.existingOperation`, a reference whose operation name is given but not found keeps its placeholder. Only a blank name draws a random operation. A reference to a missing application or service also keeps its placeholder, so a loaded topology may still hold unresolved references.
- The internal pass of `createRandomCalls` draws the calling operation from all operations of the service, not only from those still available. Only the target comes from the available ones.
- The cross-service pass draws the calling service from all services of the application, not only from those still available.
- `getRandomDuration(max)` returns `max` itself below 10. For `max` ≥ 10 it returns a value in `[max/2, max/2 + max/2 - 1]`, strictly below `max`.
- The defaulting in `Topology.setServiceAttributes` calls `Service.setApplication` when the service's application is blank. That cascade overwrites the application of every operation of the service, including one the configuration set explicitly. `OperationDefaulted` models the cascade with its `cascaded` flag.
- `Configuration.setServiceDefaults` sets a service's name only when it is blank. `Topology` always overwrites it with the key.
- `Configuration.getOperationOrRandom` passes a random operation to `orElse`, so it always draws, even when the name is found. A service without operations therefore fails even when the name is given.

## Model

| member | source | states |
|---|---|---|
| Common.Min | src/main/java/com/sunnylabs/tracegenerator/Topology.java:230 | `Math.min`: the result is one of the two arguments and no larger than either |
| Common.RemoveAt | src/main/java/com/sunnylabs/tracegenerator/Topology.java:145-147 | `list.remove(idx)`: one element fewer, and on a list without duplicates exactly the removed element is gone |
| Common.RemoveFirst | src/main/java/com/sunnylabs/tracegenerator/Topology.java:186 | `list.remove(o)`: one element fewer when `o` is present, the same list otherwise, and on a list without duplicates only `o` is gone |
| Common.RandomSource.NextInt | src/main/java/com/sunnylabs/tracegenerator/Topology.java:221-223 | `nextInt(bound)` needs a positive bound, returns a value below it and consumes exactly one draw |
| Spans.RandomValue | src/main/java/com/sunnylabs/tracegenerator/Span.java:156-159 | a random name is taken from the key's pool (the key itself when it has none) and is never blank for a non-blank key |
| Spans.NameOrDefault | src/main/java/com/sunnylabs/tracegenerator/Span.java:103-104 | a blank operation name becomes the literal `operationName`; any other name is kept |
| Spans.SourceOrDefault | src/main/java/com/sunnylabs/tracegenerator/Span.java:105 | a blank source becomes one of coffee, tea, mate or cocoa; any other source is kept |
| Spans.IdentityValue | src/main/java/com/sunnylabs/tracegenerator/Span.java:117-130 | an identity tag carries the supplied value, or a pool value when that is blank; never blank |
| Spans.Roll | src/main/java/com/sunnylabs/tracegenerator/Span.java:109 | `Math.random() * 100` lies in [0, 100) |
| Spans.WithError | src/main/java/com/sunnylabs/tracegenerator/Span.java:109-111 | the `error` tag is appended exactly when the chance exceeds the roll: always at 100 or more, never at 0 or less |
| Spans.AddIfAbsentCount | src/main/java/com/sunnylabs/tracegenerator/Span.java:118-120 | one identity step adds its key once if it was missing and leaves every other count as it was |
| Spans.AddIfAbsent | src/main/java/com/sunnylabs/tracegenerator/Span.java:118-120 | one identity step: the tag is appended only when the key is missing; stated by `AddIfAbsentCount` |
| Spans.WithIdentityTags | src/main/java/com/sunnylabs/tracegenerator/Span.java:117-130 | the tags after `addIdentityTags`; stated by `IdentityTagsAppended`, `IdentityTagCounts` and `MissingIdentityTagAdded` |
| Spans.BuiltTags | src/main/java/com/sunnylabs/tracegenerator/Span.java:101-115 | the tags of a built span: identity tags, then the error tag; stated by `BuiltTagsKeepPrefix`, `BuiltTagsHaveIdentity` and `FreshTagsHaveEachIdentityOnce` |
| Spans.IdentityTagsAppended | src/main/java/com/sunnylabs/tracegenerator/Span.java:117-130 | `addIdentityTags` keeps the existing tags as a prefix; each appended tag is an identity tag with the supplied or pool value |
| Spans.IdentityTagCounts | src/main/java/com/sunnylabs/tracegenerator/Span.java:117-130 | after `addIdentityTags` each identity key occurs once if it was missing and as often as before otherwise; other keys are untouched |
| Spans.FreshTagsHaveEachIdentityOnce | src/main/java/com/sunnylabs/tracegenerator/Span.java:101-115 | a builder without tags builds a span with exactly one tag for each of application, cluster, service and shard |
| Spans.BuiltTagsKeepPrefix | src/main/java/com/sunnylabs/tracegenerator/Span.java:101-115 | `build` never drops or reorders the tags the builder holds |
| Spans.BuiltTagsHaveIdentity | src/main/java/com/sunnylabs/tracegenerator/Span.java:107 | every built span carries all four identity tags |
| Spans.MissingIdentityTagAdded | src/main/java/com/sunnylabs/tracegenerator/Span.java:117-130 | a missing identity key is added with the supplied value (or a pool value) |
| Spans.HasTag | src/main/java/com/sunnylabs/tracegenerator/Span.java:139-146 | the loop finds the key exactly when some tag has it |
| Spans.Builder.constructor | src/main/java/com/sunnylabs/tracegenerator/Span.java:61-68 | the builder holds the given name, start, duration, source and a fresh span id, with no tags, parents or identity |
| Spans.Builder.Default | src/main/java/com/sunnylabs/tracegenerator/Span.java:54-59 | the default builder is named `operation`, sourced `source`, starts now and lasts under 500 ms |
| Spans.Builder.SetParents | src/main/java/com/sunnylabs/tracegenerator/Span.java:70-73 | sets the parents and nothing else |
| Spans.Builder.SetFollowsFrom | src/main/java/com/sunnylabs/tracegenerator/Span.java:75-78 | sets follows-from and nothing else |
| Spans.Builder.AddTag | src/main/java/com/sunnylabs/tracegenerator/Span.java:80-83 | appends one tag at the end |
| Spans.Builder.SetSpanLogs | src/main/java/com/sunnylabs/tracegenerator/Span.java:85-88 | sets the span logs and nothing else |
| Spans.Builder.SetIdentityTags | src/main/java/com/sunnylabs/tracegenerator/Span.java:90-99 | sets the four identity values and nothing else |
| Spans.Builder.ErrorChance | src/main/java/com/sunnylabs/tracegenerator/Span.java:161-164 | sets the error chance and nothing else |
| Spans.Builder.AddIdentityTags | src/main/java/com/sunnylabs/tracegenerator/Span.java:117-130 | the tag list becomes `WithIdentityTags` of the old one, whose meaning the identity-tag lemmas above state |
| Spans.Builder.Build | src/main/java/com/sunnylabs/tracegenerator/Span.java:101-115 | fills in the span id, name and source when missing, adds identity and error tags, and returns a span of exactly those fields |
| Model.PassEdge | src/main/java/com/sunnylabs/tracegenerator/Topology.java:113-125 | when the check passes, every call target exists, is off the ancestor path, and passes the check with itself added to the path |
| Model.PassMeansUnreachable | src/main/java/com/sunnylabs/tracegenerator/Topology.java:113-125 | when the check passes, no operation on the ancestor path is reachable in any number of steps |
| Model.FailMeansCycle | src/main/java/com/sunnylabs/tracegenerator/Topology.java:113-125 | when the check fails, some operation on the path is reachable again |
| Model.FailFromMeansCycle | src/main/java/com/sunnylabs/tracegenerator/Topology.java:116-124 | the same for the loop over the remaining calls |
| Model.CheckedFromItselfMeansNoCycle | src/main/java/com/sunnylabs/tracegenerator/Topology.java:106-107 | an operation whose check passes never reaches itself |
| Model.FailingCheckMeansCycle | src/main/java/com/sunnylabs/tracegenerator/Topology.java:106-107 | an operation whose check fails witnesses a cycle in the topology |
| Model.CheckCalls | src/main/java/com/sunnylabs/tracegenerator/Topology.java:113-125 | `checkCalls` with the ancestor path as a set of positions; its only failure is a circular reference, and `PassMeansUnreachable` and `FailMeansCycle` state when it passes |
| Model.CheckCallsFrom | src/main/java/com/sunnylabs/tracegenerator/Topology.java:116-124 | the loop over calls `i..`, stopping at the first failing call; its only failure is a circular reference |
| Model.CheckCall | src/main/java/com/sunnylabs/tracegenerator/Topology.java:117-123 | one call: a target on the path or a failing target check is a circular reference, the only failure |
| Operations.SetErrorChance | src/main/java/com/sunnylabs/tracegenerator/Operation.java:36-41 | a chance below 0 or above 100 is rejected; any other chance is stored unchanged and nothing else changes |
| Operations.NewOperation | src/main/java/com/sunnylabs/tracegenerator/Operation.java:21-29 | `new Operation(name)`: the given name, the default error chance, no service or application yet, no calls and no tags |
| Operations.AddCall | src/main/java/com/sunnylabs/tracegenerator/Operation.java:31-33 | the call is appended at the end and nothing else changes |
| Operations.RandomDuration | src/main/java/com/sunnylabs/tracegenerator/Operation.java:48-53 | below 10 the budget itself; otherwise a value in [max/2, max/2 + max/2 - 1], strictly below the budget |
| Operations.RootBudget | src/main/java/com/sunnylabs/tracegenerator/Operation.java:44-46 | the root budget lies in [600, 1199] |
| Operations.Window | src/main/java/com/sunnylabs/tracegenerator/Operation.java:60-61 | for a non-negative budget the span starts at or after the offset and ends within offset + budget |
| Operations.SpanBuilderFor | src/main/java/com/sunnylabs/tracegenerator/Operation.java:71-77 | the builder holds the operation's name, tags, error chance and identity, the source `trace-generator`, and the parent when there is one |
| Operations.GetSpan | src/main/java/com/sunnylabs/tracegenerator/Operation.java:71-81 | the span built is `SpanFor`, whose meaning `TraceShape.SpanForIsSpanOf` states |
| Operations.GenerateTraceFrom | src/main/java/com/sunnylabs/tracegenerator/Operation.java:55-69 | the trace is `TraceSpec`: own span, then each call's trace in order; its shape is stated in `TraceShape` |
| Operations.GenerateCallsTrace | src/main/java/com/sunnylabs/tracegenerator/Operation.java:64-67 | the loop over the calls concatenates their traces in declared order |
| Operations.GenerateCallTrace | src/main/java/com/sunnylabs/tracegenerator/Operation.java:65-66 | one call's trace, rooted at the resolved target or the placeholder |
| Operations.GenerateTrace | src/main/java/com/sunnylabs/tracegenerator/Operation.java:44-46 | the root trace: no parent, offset 0, a budget from `RootBudget` |
| Operations.TraceSpec | src/main/java/com/sunnylabs/tracegenerator/Operation.java:55-69 | the trace `generateTrace` returns: the operation's own span, then each call's trace in order; its shape is stated by `TraceShape.TraceFollowsPreOrder` and `TraceShape.TraceNests` |
| Operations.TraceCalls | src/main/java/com/sunnylabs/tracegenerator/Operation.java:64-67 | the traces of calls `i..`, concatenated, each a child of the caller's span; stated by `TraceShape.CallsFollowPreOrder` and `TraceShape.CallsNest` |
| Operations.TraceCall | src/main/java/com/sunnylabs/tracegenerator/Operation.java:65-66 | one call's trace: the target's trace, or the placeholder's when unresolved; stated by `TraceShape.CallFollowsPreOrder` and `TraceShape.CallNests` |
| Operations.RootTrace | src/main/java/com/sunnylabs/tracegenerator/Operation.java:44-46 | the root trace of an operation that passes the check is never empty |
| TraceShape.SpanForIsSpanOf | src/main/java/com/sunnylabs/tracegenerator/Operation.java:71-81 | a generated span carries the operation's name and trace id, `trace-generator` as source, the operation's tags as a prefix, and every identity tag |
| TraceShape.TraceFollowsPreOrder | src/main/java/com/sunnylabs/tracegenerator/Operation.java:55-69 | the k-th span belongs to the k-th operation of the pre-order walk of the call tree, so the length is the size of that walk |
| TraceShape.CallsFollowPreOrder | src/main/java/com/sunnylabs/tracegenerator/Operation.java:64-67 | the same for the concatenated traces of the calls |
| TraceShape.CallFollowsPreOrder | src/main/java/com/sunnylabs/tracegenerator/Operation.java:65-66 | the same for one call |
| TraceShape.TraceNests | src/main/java/com/sunnylabs/tracegenerator/Operation.java:55-69 | the first span has the given parent and lies in the given window; every later span has a parent earlier in the trace and lies in its window; no duration is negative |
| TraceShape.CallsNest | src/main/java/com/sunnylabs/tracegenerator/Operation.java:64-67 | every span of the calls' traces hangs below the caller's span and window |
| TraceShape.CallNests | src/main/java/com/sunnylabs/tracegenerator/Operation.java:65-66 | the same for one call |
| TraceShape.ChildTraceHangs | src/main/java/com/sunnylabs/tracegenerator/Operation.java:65-66 | a child's trace hangs below the parent span id and window it was given |
| TraceShape.RootTraceShape | src/main/java/com/sunnylabs/tracegenerator/Operation.java:44-69 | a root trace follows the pre-order walk, starts with a parentless span within the root budget, and nests every span under an earlier one |
| Services.DecorateAll | src/main/java/com/sunnylabs/tracegenerator/Service.java:24-27 | the decoration loop produces `Decorated`, whose meaning the lemmas below state |
| Services.Decorated | src/main/java/com/sunnylabs/tracegenerator/Service.java:24-27 | one decorated span per span; `DecorationKeepsSpans` states what changes in each |
| Services.DecorationKeepsSpans | src/main/java/com/sunnylabs/tracegenerator/Service.java:24-27 | same number and order of spans; each duration is raised by the base latency, the service tags are appended, and nothing else changes |
| Services.DecorationKeepsNesting | src/main/java/com/sunnylabs/tracegenerator/Service.java:24-27 | decoration keeps every span nested under its parent |
| Services.DecorationKeepsFollows | src/main/java/com/sunnylabs/tracegenerator/Service.java:24-27 | decoration keeps each span matched to its operation |
| Services.FindOperation | src/main/java/com/sunnylabs/tracegenerator/Service.java:21-22 | the position of the first operation with that name, or none when no operation has it |
| Services.GenerateNamedTrace | src/main/java/com/sunnylabs/tracegenerator/Service.java:20-32 | the loop returns `ServiceTrace`, whose meaning `ServiceTraceShape` states |
| Services.ServiceTrace | src/main/java/com/sunnylabs/tracegenerator/Service.java:20-32 | empty exactly when no operation has the name |
| Services.ServiceTraceShape | src/main/java/com/sunnylabs/tracegenerator/Service.java:20-32 | empty when no operation has the name; otherwise the first such operation's root trace, decorated with the latency and tags |
| Services.GenerateTrace | src/main/java/com/sunnylabs/tracegenerator/Service.java:15-18 | the random-operation trace is `RandomTrace` |
| Services.RandomTrace | src/main/java/com/sunnylabs/tracegenerator/Service.java:15-18 | fails, with an empty choice, exactly on a service without operations; otherwise a non-empty trace |
| Services.RandomTraceFindsOperation | src/main/java/com/sunnylabs/tracegenerator/Service.java:42-44 | a random pick fails exactly on a service without operations; otherwise the picked name is found and the trace has a span |
| Services.SetOperations | src/main/java/com/sunnylabs/tracegenerator/Service.java:34-40 | every operation gets the service's name and application, and nothing else changes |
| Services.SetApplication | src/main/java/com/sunnylabs/tracegenerator/Service.java:46-51 | the service and every one of its operations move to the new application, and nothing else changes |
| Services.ServiceBuilder.constructor | src/main/java/com/sunnylabs/tracegenerator/Service.java:53-59 | a builder starts with no operations, name or application |
| Services.ServiceBuilder.Operations | src/main/java/com/sunnylabs/tracegenerator/Service.java:69-76 | the operations are stamped with the name and application the builder holds at that moment |
| Services.ServiceBuilder.Name | src/main/java/com/sunnylabs/tracegenerator/Service.java:78-81 | sets the name and nothing else |
| Services.ServiceBuilder.Application | src/main/java/com/sunnylabs/tracegenerator/Service.java:83-86 | sets the application and nothing else |
| Services.ServiceBuilder.Build | src/main/java/com/sunnylabs/tracegenerator/Service.java:61-67 | a service of the held name, application and operations, with no tags and no base latency |
| Applications.GetService | src/main/java/com/sunnylabs/tracegenerator/Application.java:55-57 | the service under that key, none when absent |
| Applications.NamedTrace | src/main/java/com/sunnylabs/tracegenerator/Application.java:36-41 | empty for an absent service; for a present one, exactly that service's random trace, so a failing draw exactly when it has no operations and otherwise a non-empty trace |
| Applications.RandomService | src/main/java/com/sunnylabs/tracegenerator/Application.java:43-46 | fails exactly on an application without services; otherwise one of its keys |
| Applications.KeyList | src/main/java/com/sunnylabs/tracegenerator/Application.java:44 | `new ArrayList<>(services.keySet())`: every key exactly once, in some order (`Common.ListsKeys`, the one definition shared with `Arena.KeysOf`) |
| Applications.RandomAppTrace | src/main/java/com/sunnylabs/tracegenerator/Application.java:24-27 | `generateTrace` of an application: a random service's random trace; `RandomServiceIsPresent` states that the service always exists |
| Applications.RandomServiceIsPresent | src/main/java/com/sunnylabs/tracegenerator/Application.java:24-27 | the random service always exists, so the trace is that service's random trace and never the empty branch |
| Applications.SingleOperationSingleSpan | src/main/java/com/sunnylabs/tracegenerator/Application.java:24-27 | one service with one operation that calls nothing yields exactly one span carrying the trace id |
| Arena.AddCallAt | src/main/java/com/sunnylabs/tracegenerator/Operation.java:31-33 | `addCall` on a position: that operation gains the call at its end; every other operation, service and application is unchanged |
| Arena.KeysOf | src/main/java/com/sunnylabs/tracegenerator/Topology.java:217-219 | the loop over `map.keySet()`: every key exactly once, in some order, as `Common.ListsKeys` states for `Applications.KeyList` |
| RandomCalls.InternalStep | src/main/java/com/sunnylabs/tracegenerator/Topology.java:185-187 | one internal call adds an edge between two different operations of one service and raises its call count by one |
| RandomCalls.InternalCalls | src/main/java/com/sunnylabs/tracegenerator/Topology.java:182-188 | only edges to another operation of the same service are added, at most `internalCallsPerApp` of them, and only in that service |
| RandomCalls.InternalCallsForApp | src/main/java/com/sunnylabs/tracegenerator/Topology.java:181-189 | the same for every service of one application; other applications are unchanged |
| RandomCalls.AllInternalCalls | src/main/java/com/sunnylabs/tracegenerator/Topology.java:181-189 | the internal pass over every application adds only internal edges, at most `internalCallsPerApp` per service |
| RandomCalls.CrossServiceStep | src/main/java/com/sunnylabs/tracegenerator/Topology.java:196-202 | one cross-service call adds an edge to another service of the same application |
| RandomCalls.CrossServiceCalls | src/main/java/com/sunnylabs/tracegenerator/Topology.java:193-203 | only edges into another service of the same application are added; other applications are unchanged; a draw from an empty service fails |
| RandomCalls.AllCrossServiceCalls | src/main/java/com/sunnylabs/tracegenerator/Topology.java:192-204 | the cross-service pass over every application adds only cross-service edges |
| RandomCalls.RandomOperation | src/main/java/com/sunnylabs/tracegenerator/Topology.java:208 | the chained draw picks an existing operation, or fails on an empty service or application |
| RandomCalls.CrossAppCalls | src/main/java/com/sunnylabs/tracegenerator/Topology.java:207-214 | only edges to an operation of a different application are added |
| RandomCalls.CreateRandomCalls | src/main/java/com/sunnylabs/tracegenerator/Topology.java:179-215 | the shape is kept, and the calls grow by internal edges, then cross-service edges, then cross-application edges |
| References.SetOperationAttributes | src/main/java/com/sunnylabs/tracegenerator/Topology.java:297-308 | the name becomes the key; application and service are defaulted only where blank; nothing else changes |
| References.SetCallsAttributes | src/main/java/com/sunnylabs/tracegenerator/Topology.java:288-290 | every call placeholder gets the service's application and name where blank |
| References.SetServiceAttributes | src/main/java/com/sunnylabs/tracegenerator/Topology.java:280-295 | the service is named by its key; the application is defaulted where blank and cascades to the operations; operations are named by their keys |
| References.SetApplicationAttributes | src/main/java/com/sunnylabs/tracegenerator/Topology.java:163-168 | the application is named by its key and each service is defaulted |
| References.SetAllAttributes | src/main/java/com/sunnylabs/tracegenerator/Topology.java:162-168 | every application is defaulted from its key |
| References.ExistingOperation | src/main/java/com/sunnylabs/tracegenerator/Topology.java:264-278 | the named operation of an existing service, any of its operations for a blank name, none otherwise; a blank name in a service without operations fails |
| References.FixOperationReferences | src/main/java/com/sunnylabs/tracegenerator/Topology.java:257-262 | each slot is resolved in place or kept; fails exactly when some blank-named slot draws from an empty service |
| References.FixServiceReferences | src/main/java/com/sunnylabs/tracegenerator/Topology.java:170-175 | every operation's calls are resolved and nothing else changes |
| References.FixApplicationReferences | src/main/java/com/sunnylabs/tracegenerator/Topology.java:163-176 | every service of the application is resolved |
| References.FixAllReferences | src/main/java/com/sunnylabs/tracegenerator/Topology.java:162-177 | every application is resolved; fails exactly when some reference draws from an empty service |
| References.FixReferences | src/main/java/com/sunnylabs/tracegenerator/Topology.java:162-177 | `fixReferences`: defaults everything, then resolves every call against the defaulted topology |
| Synthesis.PutOperation | src/main/java/com/sunnylabs/tracegenerator/Topology.java:251 | `map.put`: a new name is appended; an existing name is replaced in place; names stay distinct |
| Synthesis.CreateRandomService | src/main/java/com/sunnylabs/tracegenerator/Topology.java:242-255 | min(`operationsPerService`, words) operations with distinct word names, no calls, and the given error chance |
| Synthesis.CreateRandomApp | src/main/java/com/sunnylabs/tracegenerator/Topology.java:225-240 | min(`servicesPerApp`, words) services keyed by distinct service words, each synthesized |
| Synthesis.CreateApps | src/main/java/com/sunnylabs/tracegenerator/Topology.java:144-150 | applications keyed by application words, min(`desiredRandomApps`, words) of them when the words are distinct |
| Synthesis.DefaultedIsLabelled | src/main/java/com/sunnylabs/tracegenerator/Topology.java:152 | defaulting the synthesized applications labels every name with its key and adds no calls |
| Synthesis.ServiceDefaultedIsLabelled | src/main/java/com/sunnylabs/tracegenerator/Topology.java:285-292 | a defaulted synthesized service's operations carry its application and service names and have no calls |
| Synthesis.CreateRandomApps | src/main/java/com/sunnylabs/tracegenerator/Topology.java:136-155 | the random topology is labelled and sized from the word lists; its calls grow by internal, then cross-service, then cross-application edges |
| Topologies.AllChecksPassIffAcyclic | src/main/java/com/sunnylabs/tracegenerator/Topology.java:96-111 | every operation's check passes exactly when no operation reaches itself |
| Topologies.AcyclicMeansServicesChecked | src/main/java/com/sunnylabs/tracegenerator/Topology.java:96-125 | an acyclic topology passes the check from an empty path at every operation of every service, the precondition of `Service.generateTrace` and `Application.generateTrace` |
| Topologies.CheckCallGraph | src/main/java/com/sunnylabs/tracegenerator/Topology.java:96-111 | passes exactly when the topology is acyclic, and otherwise fails with a circular reference |
| Topologies.ServiceEntrypoints | src/main/java/com/sunnylabs/tracegenerator/Topology.java:76-80 | lists each selected operation of the service once, and only selected ones |
| Topologies.ApplicationEntrypoints | src/main/java/com/sunnylabs/tracegenerator/Topology.java:76-81 | lists each selected operation of the application once, and only selected ones |
| Topologies.ConfiguredNamesAreKeys | src/main/java/com/sunnylabs/tracegenerator/Topology.java:162-177 | after `fixReferences` every application, service and operation is named by its key |
| Topologies.ResolvedSlotMeaning | src/main/java/com/sunnylabs/tracegenerator/Topology.java:257-278 | a resolved slot is an edge exactly when application and service exist and the name is blank or found; the edge leads to an operation of that service with that name; otherwise the placeholder stays |
| Topologies.ResolutionKeepsShape | src/main/java/com/sunnylabs/tracegenerator/Topology.java:257-262 | resolution changes only call slots |
| Topologies.Topology.constructor | src/main/java/com/sunnylabs/tracegenerator/Topology.java:36-41 | stores the four random-topology sizes; no applications yet |
| Topologies.ValuesOf | src/main/java/com/sunnylabs/tracegenerator/Topology.java:59-64 | `new ArrayList<>(applications.values())`: one entry per key, each the application under a distinct key, so every application appears as often as keys map to it; shared with `Configuration.applications` |
| Topologies.ApplicationNamed | src/main/java/com/sunnylabs/tracegenerator/Topology.java:92-94 | `applications.get(name)`: the application under that name, none when absent; shared with `Configuration.getApplication` |
| Topologies.Topology.Load | src/main/java/com/sunnylabs/tracegenerator/Topology.java:46-51 | configured or random topology is built; passes exactly when it is acyclic; fails with a circular reference exactly when it is not; fails on an empty draw or exhausted retries otherwise; on the configured path it never exhausts retries, and without an empty draw it passes exactly when acyclic; a loaded topology is one every service of which the trace generators accept (`ServiceChecked`) |
| Topologies.Topology.Applications | src/main/java/com/sunnylabs/tracegenerator/Topology.java:59-64 | one entry per key, each the application under a distinct key, through `Topologies.ValuesOf` |
| Topologies.Topology.Entrypoints | src/main/java/com/sunnylabs/tracegenerator/Topology.java:72-84 | every operation when no slug is listed, otherwise exactly those whose `app.service.operation` slug is listed, each once |
| Topologies.Topology.GetApplication | src/main/java/com/sunnylabs/tracegenerator/Topology.java:92-94 | the application under that name, none when absent, through `Topologies.ApplicationNamed` |
| Configurations.SetOperationDefaults | src/main/java/com/sunnylabs/tracegenerator/Configuration.java:91-98 | application and service are defaulted only where blank; nothing else changes |
| Configurations.SetServiceDefaults | src/main/java/com/sunnylabs/tracegenerator/Configuration.java:68-89 | name and application are set only where blank; operations and their call placeholders are defaulted, with the application cascade |
| Configurations.SetDefaults | src/main/java/com/sunnylabs/tracegenerator/Configuration.java:22-29 | each application is named by its key and every service is defaulted |
| Configurations.GetOperationOrRandom | src/main/java/com/sunnylabs/tracegenerator/Configuration.java:61-66 | the first operation with the name, or a random one; fails exactly on a service without operations |
| Configurations.ExistingOperation | src/main/java/com/sunnylabs/tracegenerator/Configuration.java:49-59 | none for a missing application or service; otherwise an edge into the service, to the first operation with the name when there is one |
| Configurations.FixOperationReferences | src/main/java/com/sunnylabs/tracegenerator/Configuration.java:42-47 | each slot is resolved in place or kept; fails exactly when some reference names an existing service without operations |
| Configurations.FixServiceReferences | src/main/java/com/sunnylabs/tracegenerator/Configuration.java:33-38 | every operation's calls are resolved and nothing else changes |
| Configurations.FixAllReferences | src/main/java/com/sunnylabs/tracegenerator/Configuration.java:32-39 | every application is resolved; fails exactly when some reference draws from an empty service |
| Configurations.Configuration.Applications | src/main/java/com/sunnylabs/tracegenerator/Configuration.java:111-114 | one entry per key, each the application under a distinct key, through `Topologies.ValuesOf` |
| Configurations.Configuration.Entrypoints | src/main/java/com/sunnylabs/tracegenerator/Configuration.java:116-125 | every operation when no slug is listed, otherwise exactly those whose slug is listed, each once |
| Configurations.Configuration.GetApplication | src/main/java/com/sunnylabs/tracegenerator/Configuration.java:127-129 | the application under that name, none when absent, through `Topologies.ApplicationNamed` |
| Configurations.NewConfiguration | src/main/java/com/sunnylabs/tracegenerator/Configuration.java:16-20 | defaults, then resolves against the defaulted applications; fails exactly when some reference draws from an empty service |

## Left out

- YAML parsing, stream handling and reading `wordlists.yaml` are not modelled. The model takes the parsed configuration (`RawConfig`, `RawApplication`) and the word lists (`WordLists`) as inputs.
- `java.util.Random`, `Math.random()`, `UUID.randomUUID()` and `System.currentTimeMillis()` are inputs: a draw stream in `RandomSource`, draws in `TraceEnv`, and a fresh-id supply. `nextInt(n)` is a draw modulo `n`. Uniformity is not modelled, and the clock is read once per trace.
- The default error percentage comes from a system property in the source. Here it is a parameter.
- `float` and `double` are modelled as `real`. They are only compared, so rounding is not modelled.
- `null` is modelled as a blank string or an empty collection, and the `NullPointerException` paths are not modelled. For example, `Configuration` assumes every application has services. A blank operation name is compared like any other name, where Java's `null.equals` would throw.
- A `java.util.HashMap`'s iteration order is left open. The model takes the keys in an arbitrary order (`Arena.KeysOf`, and `var k :| k in todo` in the loops).
- Lombok `equals` compares operations by value. The model compares positions, so two distinct operations with equal fields count as different in `available.remove(o)` and in the cycle check.
- The retry loops of `createRandomCalls` (`Topology.java:195-203`, `:210-212`) terminate only with probability one. The cross-application retry never terminates when there is a single application. Each loop is bounded by `fuel`, and running out is the `RetriesExhausted` error. Termination is not modelled.
- When `load` throws, the model's state differs from the source's in two ways. On the configured path the applications are left defaulted but unresolved. On the random path they are left empty. The source may have resolved some applications before throwing; the model keeps no such partial resolution.
- `Topology.fixReferences` defaults and resolves one application at a time. The model defaults everything first and then resolves. The source finds applications and services by map key (`Topology.java:93`, `Application.java:56`), and defaulting changes no key, so an application not yet defaulted is found just the same. The model finds an operation by name in the defaulted service (`FindOperation`), and defaulting has set every operation's name to its key (`Topology.java:301`), so this agrees with a lookup by key.
- `Service.getOperation(name)` (`Topology.java:277`) belongs to a map-keyed revision of `Service` that is not part of this model. The model takes it to be a lookup by key among the service's keyed operations, which `Topology.java` expects: it walks a service's operations as a map from name to operation (`Topology.java:286`).
- On the random path, `fixReferences` (`Topology.java:152`) is modelled as defaulting only. The synthesized operations have no calls, so there is nothing to resolve.
- `Topology.applications()` and `Configuration.applications()` return the applications in an unspecified order. The model states only that there is one entry per key, each the application under a distinct key.
- `Operation.generateTrace` writes `source = "trace-generator"` into the operation itself. The model puts that source on the span and does not model the write to the operation.
- TraceShape.TraceNests: nesting in absolute time is proved for one clock reading per trace (`TraceEnv.now`). The source reads `System.currentTimeMillis()` in every `getSpan` (`Operation.java:72`), so it guarantees nesting only of the offsets; a clock tick between a parent's span and a child's can put the child's end past the parent's.
- TraceShape.RootTraceShape: the same single clock reading; the nesting stated holds for offsets from one `now`.
- Services.ServiceTraceShape: the same single clock reading for the decorated root trace.
- Durations, start times and budgets are unbounded integers. The source uses Java `int` and `long`, so a `duration += baseLatency` (`Service.java:25`) that overflows would wrap there and does not here.
- Span logs are passed through untouched. The error span log is commented out in the source.
- `TraceSender`, the Spring application, the scheduler and the Wavefront client wiring are not part of this model.
- RandomCalls.InternalCalls: states an upper bound of `internalCallsPerApp` new calls per service, not the exact number, which is min(n, operations − 1) when every caller drawn is still available.
- RandomCalls.CrossServiceCalls: does not state how many calls are added. The number depends on which callers drawn are still available.
- RandomCalls.CrossAppCalls: does not state that exactly one call is added per application.
