# Avatar source generator: a Dafny model

This project models the orchestration core of the avatar (stunt) source
generator and its `CompilerGenerated` fixup processor.

The generator collects invocations of generic methods while the compiler
walks the syntax trees. On execution it groups its registered processors by
language and then by phase, once per generator. It resolves each recorded
invocation into a candidate: a list of type arguments. A candidate is
dropped when it is not a call to a generator method, or when one of its type
arguments is null or has a method taking a pointer. Each remaining candidate
gets a name from the naming convention. A name that was already emitted is
skipped. Otherwise the candidate's syntax runs through the Prepare,
Scaffold, Rewrite and Fixup processors of the context's language, in that
order, and is emitted under its name. When the language has no Scaffold
processor, a default scaffold runs instead.

The `CSharpGenerated` processor is a C#-only Fixup processor. It rewrites a
document so that every class declaration, nested ones included, carries a
`CompilerGenerated` attribute. A class that already has one is left as it is.

Modelling choices:

- Processors are opaque transforms. A processor is the record
  `(kind, language, phase)`. An avatar's syntax is the trace of the
  transforms applied to it (`Pipeline.Step`), so ordering can be stated
  exactly.
- The naming convention and the semantic model are function-valued
  parameters: `NamingConvention` and `ProcessorContext.semantic`.
  `GetTypeByMetadataName` becomes membership in `ProcessorContext.knownTypes`.
- `AvatarGenerator` is a class. Its lazily assigned `configured` dictionary
  is a field, and the builders return fresh instances. The generation loop
  (`EmitAvatars`) and the per-phase loops (`RunPhase`) are methods.
  `EmitAvatars` is proved equal to the specification function `Emission`,
  and the emission promises are lemmas about `Emission`. `ProcessCandidate`,
  built from `RunPhase`, is proved to yield `PhaseTrace`.
  `TraceFollowsRegistration` equates that with `ExpectedTrace`, and the
  phase-order promises are lemmas about `ExpectedTrace`.
- The `CompilerGenerated` rewrite is a pure recursive function over a syntax
  tree of class declarations and other nodes.
- The default scaffold is the trace step `DefaultScaffold`. Syntax creation
  starts an empty trace.

Facts about the source that the model keeps:

- Only class declarations are marked `CompilerGenerated`
  (src/Avatar.StaticProxy/Processors/CSharpGenerated.cs:49-55). Methods,
  properties and other members are not, although the class's doc comment
  (lines 12-16) speaks of "all generated members".
- A candidate with an unresolved or pointer-using type argument is skipped
  without a diagnostic (src/Avatar.StaticProxy/AvatarGenerator.cs:182-184).
- Generation is one sequential loop over the candidates
  (src/Avatar.StaticProxy/AvatarGenerator.cs:194-259).

## Model

| member | source | states |
|---|---|---|
| `Symbols.AnyPointerParameter` | src/Avatar.StaticProxy/AvatarGenerator.cs:268-271 | true exactly when some parameter's type is of pointer kind |
| `Symbols.UsesPointers` | src/Avatar.StaticProxy/AvatarGenerator.cs:268-271 | true exactly when some method member of the type takes a pointer-typed parameter; non-method members are ignored |
| `Symbols.CanGenerateFor` | src/Avatar.StaticProxy/AvatarGenerator.cs:262-274 | false for a null symbol; otherwise true exactly when no method of the type takes a pointer-typed parameter |
| `Processors.Select` | src/Avatar.StaticProxy/AvatarGenerator.cs:149-157 | a group holds only registered processors of its language and phase, and is empty exactly when no such processor is registered |
| `Processors.SelectedIndices` | src/Avatar.StaticProxy/AvatarGenerator.cs:149-157 | the group's processors sit at strictly increasing positions of the registration list, so a group keeps registration order |
| `Processors.SelectedIndicesComplete` | src/Avatar.StaticProxy/AvatarGenerator.cs:149-157 | every registered processor of the language and phase is in its group |
| `Processors.Group` | src/Avatar.StaticProxy/AvatarGenerator.cs:149-157 | the configured dictionary's keys are exactly the languages with processors; under a language, exactly the phases with processors; each entry is that language and phase's group in registration order |
| `Pipeline.RunPhase` | src/Avatar.StaticProxy/AvatarGenerator.cs:204-206 | running a phase applies its processors one after the other in list order; name and targets are untouched |
| `Pipeline.ProcessCandidate` | src/Avatar.StaticProxy/AvatarGenerator.cs:204-230 | a candidate's trace gains Prepare, then the Scaffold processors or the default scaffold when the phase is absent, then Rewrite, then Fixup |
| `Pipeline.TraceFollowsRegistration` | src/Avatar.StaticProxy/AvatarGenerator.cs:149-157 | for a configured language, running the grouped dictionary gives each phase's registered processors in registration order, with the default scaffold exactly when there is no Scaffold processor |
| `Pipeline.TraceRunsPhasesInOrder` | src/Avatar.StaticProxy/AvatarGenerator.cs:204-230 | no step of a later phase precedes a step of an earlier phase (Prepare, Scaffold, Rewrite, Fixup) |
| `Pipeline.TraceRunsEachPhaseInRegistrationOrder` | src/Avatar.StaticProxy/AvatarGenerator.cs:204-230 | the steps of each phase are exactly that phase's processors for the language in registration order; for Scaffold, the default scaffold alone when there are none |
| `Pipeline.DefaultScaffoldExactlyWhenNoScaffolder` | src/Avatar.StaticProxy/AvatarGenerator.cs:208-222 | the default scaffold runs iff the language has no Scaffold processor, and then no Scaffold processor runs |
| `Pipeline.TraceRunsOnlyLanguageProcessors` | src/Avatar.StaticProxy/AvatarGenerator.cs:201-230 | every processor an avatar's trace runs is a registered processor of the context's language |
| `Generation.Candidates` | src/Avatar.StaticProxy/AvatarGenerator.cs:166-188 | at most one candidate per invocation, and every type in a candidate passes `CanGenerateFor` |
| `Generation.CandidatesExactly` | src/Avatar.StaticProxy/AvatarGenerator.cs:166-188 | a type list is a candidate iff some recorded invocation resolves to a generator method whose type arguments all pass `CanGenerateFor` |
| `Generation.CandidatesConcat` | src/Avatar.StaticProxy/AvatarGenerator.cs:168-186 | candidates come out in the order of the recorded invocations |
| `Generation.EmitAvatars` | src/Avatar.StaticProxy/AvatarGenerator.cs:192-234 | the loop's final name set and emitted sources are those of the specification `Emission` started from an empty name set |
| `Generation.EmittedAtMostOnce` | src/Avatar.StaticProxy/AvatarGenerator.cs:192-198 | no name is emitted twice or when seen before; the name set is the earlier names plus the emitted names |
| `Generation.UnconfiguredLanguageEmitsNothing` | src/Avatar.StaticProxy/AvatarGenerator.cs:201-202 | when the language has no processors nothing is emitted and the name set is unchanged |
| `Generation.EveryNewNameEmitted` | src/Avatar.StaticProxy/AvatarGenerator.cs:194-234 | with processors for the language, every candidate's name ends up recorded; a name is emitted iff some candidate has it and it was not seen before |
| `Generation.EmittedFromFirstCandidate` | src/Avatar.StaticProxy/AvatarGenerator.cs:194-234 | each emitted source is the first candidate with that name, run through the language's phases; sources appear in the order their names first occur |
| `Receivers.Record` | src/Avatar.StaticProxy/AvatarGenerator.cs:300-314 | an invocation is recorded exactly when its callee is a generic name, directly or as a member access's name, and the generic name is recorded with it |
| `Receivers.CollectedConcat` | src/Avatar.StaticProxy/AvatarGenerator.cs:300-314 | the avatar receiver's list follows visit order: two stretches of nodes collect the first stretch's invocations, then the second's |
| `Receivers.CollectedExactly` | src/Avatar.StaticProxy/AvatarGenerator.cs:300-314 | an entry is in the list iff some visited node records it |
| `Receivers.SyntaxReceiver.constructor` | src/Avatar.StaticProxy/AvatarGenerator.cs:298 | a new receiver has an empty `Invocations` list, has been shown nothing, and writes to the given journal under the given id |
| `Receivers.SyntaxReceiver.OnVisitSyntaxNode` | src/Avatar.StaticProxy/AvatarGenerator.cs:300-314 | the avatar receiver appends the recorded invocation, if any, to its list; its list is always what was collected from every node it was shown; each delivery is logged in the shared journal under the receiver's id |
| `Receivers.AggregateSyntaxReceiver.constructor` | src/Avatar.StaticProxy/AvatarGenerator.cs:280-281 | keeps the given receivers in their order and establishes the aggregate's invariant (one shared journal, distinct ids, every wrapped receiver valid) |
| `Receivers.AggregateSyntaxReceiver.OnVisitSyntaxNode` | src/Avatar.StaticProxy/AvatarGenerator.cs:283-287 | every wrapped receiver is shown the node once; the shared journal, which the wrapped receivers write themselves, gains one entry per receiver in array order |
| `Generator.DefaultProcessors` | src/Avatar.StaticProxy/AvatarGenerator.cs:50-59 | the seven built-in processors in their registration order; `CSharpGenerated` registers for C# in the Fixup phase |
| `Generator.FirstAvatarReceiver` | src/Avatar.StaticProxy/AvatarGenerator.cs:159-160 | the first avatar receiver among the context's receivers, or none exactly when there is none |
| `Generator.AvatarGenerator.constructor` | src/Avatar.StaticProxy/AvatarGenerator.cs:77-79 | keeps the naming convention, attribute and processors; no receivers; not yet configured |
| `Generator.AvatarGenerator.Default` | src/Avatar.StaticProxy/AvatarGenerator.cs:65 | the default attribute and the default processors |
| `Generator.AvatarGenerator.WithSyntaxReceiver` | src/Avatar.StaticProxy/AvatarGenerator.cs:131-132 | a fresh generator with the factory appended to the receivers and, as written, an empty processor list |
| `Generator.AvatarGenerator.WithSyntaxReceiverKeepingProcessors` | src/Avatar.StaticProxy/AvatarGenerator.cs:131-132 | the corrected builder: the factory appended and the processors kept |
| `Generator.AvatarGenerator.WithProcessor` | src/Avatar.StaticProxy/AvatarGenerator.cs:137-138 | a fresh generator whose processors are the old ones with the new one at the end, receivers kept; the original is not modified |
| `Generator.AvatarGenerator.WithProcessors` | src/Avatar.StaticProxy/AvatarGenerator.cs:143-144 | a fresh generator whose processors are exactly the given ones, receivers kept |
| `Generator.AvatarGenerator.Initialize` | src/Avatar.StaticProxy/AvatarGenerator.cs:114-118 | the aggregate the registered factory builds holds a fresh avatar receiver first, then one fresh receiver per registered factory, in order, all writing to a fresh, empty journal |
| `Generator.AvatarGenerator.OnExecute` | src/Avatar.StaticProxy/AvatarGenerator.cs:146-234 | groups the processors once and keeps that grouping; emits nothing without an avatar receiver or a known generator attribute; otherwise emits what the generation loop emits for the candidates |
| `Generator.NoProcessorsEmitNothing` | src/Avatar.StaticProxy/AvatarGenerator.cs:131-132 | a generator without processors, such as one returned by `WithSyntaxReceiver`, emits nothing for any candidates |
| `CSharpGenerated.Mark` | src/Avatar.StaticProxy/Processors/CSharpGenerated.cs:49-59 | the marked list carries `CompilerGenerated`; a list that already has it is returned unchanged; otherwise the old attributes are kept as a prefix and exactly one `CompilerGenerated` is added |
| `CSharpGenerated.VisitKeepsMarkedTree` | src/Avatar.StaticProxy/Processors/CSharpGenerated.cs:51-52 | a tree whose classes all carry the attribute is left unchanged |
| `CSharpGenerated.VisitIdempotent` | src/Avatar.StaticProxy/Processors/CSharpGenerated.cs:49-59 | rewriting the rewritten tree changes nothing |
| `CSharpGenerated.VisitMarksEachClassOnce` | src/Avatar.StaticProxy/Processors/CSharpGenerated.cs:49-59 | class by class in document order, the new attribute list is the old one marked |
| `CSharpGenerated.ProcessAsync` | src/Avatar.StaticProxy/Processors/CSharpGenerated.cs:32-41 | a document without a syntax root is returned unchanged; otherwise every class in the new root is marked, only class attribute lists changed, and class by class the new list is the old list marked |
| `CSharpGenerated.Visit` | src/Avatar.StaticProxy/Processors/CSharpGenerated.cs:38-59 | every class declaration at any depth carries `CompilerGenerated`; nothing but class attribute lists changes; the node's own class list is `Mark` of the old one |
| `CSharpGenerated.ProcessAsyncIdempotent` | src/Avatar.StaticProxy/Processors/CSharpGenerated.cs:32-59 | processing a processed document changes nothing |

## Left out

- `Execute`'s host plumbing: the debugger check and the analyzer search path. The model starts at `OnExecute`.
- Roslyn's semantic analysis: symbol lookup, attribute matching and metadata type lookup. These become the `semantic` function and the `knownTypes` set of `ProcessorContext`.
- What processors and the default scaffold do to the syntax tree: each is one step of the trace, and the syntax factory starts an empty trace.
- The compilation swap after the default scaffold. Processors in the model do not read the context, so the reassigned context is not represented.
- The lazily created `AvatarScaffold` instance. It holds no state the model observes.
- Whitespace normalisation, source text and `AddSource`. Emission is appending `Source(name, syntax)` to the output.
- The DEBUG-only file writes and debugger logging.
- Exceptions: a processor that throws, or a faulted task behind `.Result`.
- The naming convention's scheme: the source's `NamingConvention` class is not among the modelled files, so the model takes it as a function-valued parameter (`Generation.NamingConvention`).
- The language and phase of the six default processors other than `CSharpGenerated`: their sources are not part of this model. `DefaultProcessors` takes them as a parameter.
- `Generator.AvatarGenerator.Default`: takes the default naming convention as a parameter, since the source's `NamingConvention` class is not among the modelled files.
- What receivers made by registered factories do. They are modelled as recording the nodes they are shown.
- `Receivers.AggregateSyntaxReceiver.constructor`: requires the wrapped receivers to carry distinct ids, and so to be distinct objects, and to share one journal. The source does not demand this; aliasing between wrapped receivers is not modelled. The journal is a ghost record that exists only to make the delivery order observable.
- `AggregateSyntaxReceiver`'s enumerator and the `Processors` getter only expose a field.
- Several attribute lists on one declaration are flattened into one list. Attribute names are compared as written with `CompilerGenerated`, as the processor compares `GetName`'s result.
- Type composition, conflict resolution, the behaviour pipeline and invocation contexts are not part of this model: none of their code is in the modelled files.

## Findings

| source | as written | input that shows it | evidently intended | confidence | as-written member | corrected member |
|---|---|---|---|---|---|---|
| src/Avatar.StaticProxy/AvatarGenerator.cs:131-132 | `WithSyntaxReceiver` builds the new generator with a two-argument call, which binds the `params` constructor (lines 77-79) with an empty processor array. Its processor list is therefore empty, and the registered processors are lost | the default generator, then `WithSyntaxReceiver(f)`: the result has no processors and emits nothing for any candidate | keep the processors, as `WithProcessor` and `WithProcessors` keep the receivers | medium; not executed | `Generator.AvatarGenerator.WithSyntaxReceiver`, `Generator.NoProcessorsEmitNothing` | `Generator.AvatarGenerator.WithSyntaxReceiverKeepingProcessors` |
