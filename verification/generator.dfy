/**
 * The avatar source generator: its configuration (naming convention,
 * generator attribute, receiver factories, processors), the immutable
 * builders that derive new generators, the receivers it registers, and one
 * execution, which groups the processors once and then runs the generation
 * loop over the candidates found by the avatar receiver.
 */
module Generator {
  import opened Wrappers
  import opened Symbols
  import opened Processors
  import opened Pipeline
  import opened Receivers
  import opened Generation
  import Marker = CSharpGenerated

  /** The type name of the default generator attribute, `AvatarGeneratorAttribute`. */
  const DefaultGeneratorAttribute: string := "AvatarGeneratorAttribute"

  /** The built-in processors, in the order the default generator registers them. */
  const DefaultProcessorKinds: seq<ProcessorKind> :=
    [DefaultImports, CSharpRewrite, CSharpAvatar, ProcessorKind.CSharpGenerated, FixupImports, CSharpFileHeader, CSharpPragmas]

  /**
   * The default processors, in registration order.  `CSharpGenerated`
   * registers for the language and phase it declares; `describe` gives the
   * language and phase of the other six.
   */
  function DefaultProcessors(describe: ProcessorKind -> (Language, Phase)): (r: seq<Processor>)
    ensures |r| == |DefaultProcessorKinds| && forall i :: 0 <= i < |r| ==> r[i].kind == DefaultProcessorKinds[i]
    ensures r[3] == Processor(ProcessorKind.CSharpGenerated, CSharp, Fixup)
  {
    seq(|DefaultProcessorKinds|, i requires 0 <= i < |DefaultProcessorKinds| =>
      var kind := DefaultProcessorKinds[i];
      if kind == ProcessorKind.CSharpGenerated then Processor(kind, Marker.Languages[0], Marker.ProcessorPhase)
      else Processor(kind, describe(kind).0, describe(kind).1))
  }

  /**
   * What one execution sees: the context's language, the syntax receivers
   * the compiler filled, the type names the compilation resolves, and the
   * semantic model's resolution of each recorded invocation.
   */
  datatype ProcessorContext = ProcessorContext(
    language: Language,
    syntaxReceivers: seq<SyntaxReceiver>,
    knownTypes: set<string>,
    semantic: RecordedInvocation -> Resolution)

  /** The first avatar receiver among the receivers, if any. */
  function FirstAvatarReceiver(rs: seq<SyntaxReceiver>): (r: Option<SyntaxReceiver>)
    ensures r.None? <==> forall i :: 0 <= i < |rs| ==> !rs[i].kind.AvatarGeneratorReceiver?
    ensures r.Some? ==>
      exists i :: && 0 <= i < |rs| && rs[i] == r.value && rs[i].kind.AvatarGeneratorReceiver?
                  && forall j :: 0 <= j < i ==> !rs[j].kind.AvatarGeneratorReceiver?
  {
    if rs == [] then None
    else if rs[0].kind.AvatarGeneratorReceiver? then Some(rs[0])
    else
      var r := FirstAvatarReceiver(rs[1..]);
      assert forall i :: 1 <= i < |rs| ==> rs[i] == rs[1..][i - 1];
      if r.Some? then
        var i :| 0 <= i < |rs[1..]| && rs[1..][i] == r.value && rs[1..][i].kind.AvatarGeneratorReceiver? &&
          forall j :: 0 <= j < i ==> !rs[1..][j].kind.AvatarGeneratorReceiver?;
        assert rs[i + 1] == r.value;
        r
      else r
  }

  class AvatarGenerator {
    const naming: NamingConvention
    const generatorAttribute: string
    var receivers: seq<ReceiverFactory>
    var processors: seq<Processor>
    /** The processors grouped by language, then phase; computed on first execution. */
    var configured: Option<Grouping>

    ghost predicate Valid()
      reads this
    {
      configured.Some? ==> configured.value == Group(processors)
    }

    constructor (naming: NamingConvention, generatorAttribute: string, processors: seq<Processor>)
      ensures this.naming == naming && this.generatorAttribute == generatorAttribute
      ensures this.processors == processors && receivers == [] && configured == None && Valid()
    {
      this.naming := naming;
      this.generatorAttribute := generatorAttribute;
      this.processors := processors;
      receivers := [];
      configured := None;
    }

    /** The default generator: the default naming convention and attribute, and the default processors. */
    constructor Default(defaultNaming: NamingConvention, describe: ProcessorKind -> (Language, Phase))
      ensures naming == defaultNaming && generatorAttribute == DefaultGeneratorAttribute
      ensures processors == DefaultProcessors(describe) && receivers == [] && configured == None && Valid()
    {
      naming := defaultNaming;
      generatorAttribute := DefaultGeneratorAttribute;
      processors := DefaultProcessors(describe);
      receivers := [];
      configured := None;
    }

    /**
     * A new generator with the receiver factory appended.  As written it is
     * built without processors: the registered processors are not carried over.
     */
    method WithSyntaxReceiver(receiverFactory: ReceiverFactory) returns (g: AvatarGenerator)
      ensures fresh(g) && g.Valid()
      ensures g.naming == naming && g.generatorAttribute == generatorAttribute
      ensures g.receivers == receivers + [receiverFactory] && g.processors == [] && g.configured == None
    {
      g := new AvatarGenerator(naming, generatorAttribute, []);
      g.receivers := receivers + [receiverFactory];
    }

    /** A new generator with the receiver factory appended and the processors kept. */
    method WithSyntaxReceiverKeepingProcessors(receiverFactory: ReceiverFactory) returns (g: AvatarGenerator)
      ensures fresh(g) && g.Valid()
      ensures g.naming == naming && g.generatorAttribute == generatorAttribute
      ensures g.receivers == receivers + [receiverFactory] && g.processors == processors && g.configured == None
    {
      g := new AvatarGenerator(naming, generatorAttribute, []);
      g.receivers := receivers + [receiverFactory];
      g.processors := processors;
    }

    /** A new generator with the processor appended after the registered ones and the receivers kept. */
    method WithProcessor(processor: Processor) returns (g: AvatarGenerator)
      ensures fresh(g) && g.Valid()
      ensures g.naming == naming && g.generatorAttribute == generatorAttribute
      ensures g.receivers == receivers && g.processors == processors + [processor] && g.configured == None
    {
      g := new AvatarGenerator(naming, generatorAttribute, []);
      g.receivers := receivers;
      g.processors := processors + [processor];
    }

    /** A new generator whose processors are exactly the given ones, the receivers kept. */
    method WithProcessors(processors: seq<Processor>) returns (g: AvatarGenerator)
      ensures fresh(g) && g.Valid()
      ensures g.naming == naming && g.generatorAttribute == generatorAttribute
      ensures g.receivers == receivers && g.processors == processors && g.configured == None
    {
      g := new AvatarGenerator(naming, generatorAttribute, []);
      g.receivers := this.receivers;
      g.processors := processors;
    }

    /**
     * The aggregate receiver the generator registers for syntax
     * notifications: a fresh avatar receiver first, then one receiver from
     * each registered factory, in registration order.
     */
    method Initialize() returns (aggregate: AggregateSyntaxReceiver)
      ensures fresh(aggregate) && fresh(aggregate.journal) && aggregate.Valid() && aggregate.journal.entries == []
      ensures |aggregate.receivers| == |receivers| + 1
      ensures aggregate.receivers[0].kind == AvatarGeneratorReceiver
      ensures forall i :: 0 <= i < |receivers| ==> aggregate.receivers[i + 1].kind == FactoryReceiver(receivers[i])
      ensures forall i :: 0 <= i < |aggregate.receivers| ==> fresh(aggregate.receivers[i]) && aggregate.receivers[i].shown == []
    {
      var journal := new Journal();
      var first := new SyntaxReceiver(AvatarGeneratorReceiver, 0, journal);
      var rs := [first];
      for i := 0 to |receivers|
        invariant |rs| == i + 1 && rs[0].kind == AvatarGeneratorReceiver
        invariant forall k :: 0 <= k < i ==> rs[k + 1].kind == FactoryReceiver(receivers[k])
        invariant journal.entries == []
        invariant forall k :: 0 <= k < |rs| ==> fresh(rs[k]) && rs[k].id == k && rs[k].journal == journal && rs[k].Valid() && rs[k].shown == []
      {
        var r := new SyntaxReceiver(FactoryReceiver(receivers[i]), i + 1, journal);
        rs := rs + [r];
      }
      aggregate := new AggregateSyntaxReceiver(rs, journal);
    }

    /**
     * One execution: group the processors unless already grouped; stop
     * without output when the context has no avatar receiver or the
     * compilation does not know the generator attribute; otherwise run the
     * generation loop over the candidates.
     */
    method OnExecute(context: ProcessorContext) returns (emitted: seq<Source>)
      requires Valid()
      modifies this`configured
      ensures Valid() && configured == Some(Group(processors))
      ensures old(configured).Some? ==> configured == old(configured)
      ensures var receiver := FirstAvatarReceiver(context.syntaxReceivers);
        emitted ==
          if receiver.None? || generatorAttribute !in context.knownTypes then []
          else Emission(Group(processors), context.language, naming,
                        Candidates(receiver.value.invocations, context.semantic), {}).emitted
    {
      if configured.None? {
        configured := Some(Group(processors));
      }
      var receiver := FirstAvatarReceiver(context.syntaxReceivers);
      if receiver.None? {
        return [];
      }
      if generatorAttribute !in context.knownTypes {
        return [];
      }
      var candidates := Candidates(receiver.value.invocations, context.semantic);
      var avatars;
      avatars, emitted := EmitAvatars(configured.value, context.language, naming, candidates);
    }
  }

  /** A generator without processors, such as one built by `WithSyntaxReceiver`, emits nothing. */
  lemma {:induction false} NoProcessorsEmitNothing(language: Language, naming: NamingConvention, candidates: seq<seq<TypeSymbol>>)
    ensures Emission(Group([]), language, naming, candidates, {}) == RunState({}, [])
  {
    UnconfiguredLanguageEmitsNothing(Group([]), language, naming, candidates, {});
  }
}
