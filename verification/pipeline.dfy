/**
 * The per-avatar pipeline: a candidate's syntax goes through the Prepare,
 * Scaffold, Rewrite and Fixup processors of the context's language, in that
 * order, with a default scaffold standing in when the language has no
 * Scaffold processor.  Processors are opaque, so the syntax is modelled as
 * the trace of the transforms applied to it.
 */
module Pipeline {
  import opened Symbols
  import opened Processors

  /** One transform applied to an avatar's syntax. */
  datatype Step = Ran(processor: Processor) | DefaultScaffold

  /** An avatar's syntax: its name, the types it stands in for, and the transforms applied so far. */
  datatype Syntax = Syntax(name: string, targets: seq<TypeSymbol>, steps: seq<Step>)

  /** The syntax the language's syntax factory creates for a candidate, before any processor. */
  function CreateSyntax(name: string, targets: seq<TypeSymbol>): Syntax
  {
    Syntax(name, targets, [])
  }

  /** A processor's transform. */
  function Process(p: Processor, syntax: Syntax): Syntax
  {
    syntax.(steps := syntax.steps + [Ran(p)])
  }

  /** The default scaffold's transform, used for `name` when no Scaffold processor exists. */
  function ScaffoldDefault(name: string, syntax: Syntax): Syntax
  {
    syntax.(steps := syntax.steps + [DefaultScaffold])
  }

  /** The steps that running `ps` one after the other adds. */
  function StepsOf(ps: seq<Processor>): (r: seq<Step>)
    ensures |r| == |ps| && forall k :: 0 <= k < |ps| ==> r[k] == Ran(ps[k])
  {
    seq(|ps|, k requires 0 <= k < |ps| => Ran(ps[k]))
  }

  /** The phase a step belongs to. */
  function PhaseOf(step: Step): Phase
  {
    match step
    case Ran(p) => p.phase
    case DefaultScaffold => Scaffold
  }

  /** Run the processors of one phase, in order, each on the previous one's output. */
  method RunPhase(processors: seq<Processor>, syntax: Syntax) returns (r: Syntax)
    ensures r.name == syntax.name && r.targets == syntax.targets
    ensures r.steps == syntax.steps + StepsOf(processors)
  {
    r := syntax;
    for i := 0 to |processors|
      invariant r.name == syntax.name && r.targets == syntax.targets
      invariant r.steps == syntax.steps + StepsOf(processors[..i])
    {
      assert StepsOf(processors[..i + 1]) == StepsOf(processors[..i]) + [Ran(processors[i])];
      r := Process(processors[i], r);
    }
    assert processors[..|processors|] == processors;
  }

  /** The steps a phase contributes when the language's groups are `supported`. */
  function PhaseSteps(supported: map<Phase, seq<Processor>>, phase: Phase): seq<Step>
  {
    if phase in supported then StepsOf(supported[phase]) else []
  }

  /** The whole trace one avatar receives from the language's groups `supported`. */
  function PhaseTrace(supported: map<Phase, seq<Processor>>): seq<Step>
  {
    PhaseSteps(supported, Prepare)
    + (if Scaffold in supported then StepsOf(supported[Scaffold]) else [DefaultScaffold])
    + PhaseSteps(supported, Rewrite)
    + PhaseSteps(supported, Fixup)
  }

  /** Run one candidate's syntax through the four phases of the language's processors. */
  method ProcessCandidate(supported: map<Phase, seq<Processor>>, name: string, syntax: Syntax) returns (r: Syntax)
    ensures r.name == syntax.name && r.targets == syntax.targets
    ensures r.steps == syntax.steps + PhaseTrace(supported)
  {
    r := syntax;
    if Prepare in supported {
      r := RunPhase(supported[Prepare], r);
    }
    assert r.steps == syntax.steps + PhaseSteps(supported, Prepare);
    ghost var scaffolded := if Scaffold in supported then StepsOf(supported[Scaffold]) else [DefaultScaffold];
    if Scaffold in supported {
      r := RunPhase(supported[Scaffold], r);
    } else {
      r := ScaffoldDefault(name, r);
    }
    assert r.steps == syntax.steps + PhaseSteps(supported, Prepare) + scaffolded;
    if Rewrite in supported {
      r := RunPhase(supported[Rewrite], r);
    }
    assert r.steps == syntax.steps + PhaseSteps(supported, Prepare) + scaffolded + PhaseSteps(supported, Rewrite);
    if Fixup in supported {
      r := RunPhase(supported[Fixup], r);
    }
    assert r.steps == syntax.steps + PhaseSteps(supported, Prepare) + scaffolded + PhaseSteps(supported, Rewrite)
      + PhaseSteps(supported, Fixup);
    AppendAssociative(syntax.steps, PhaseSteps(supported, Prepare), scaffolded, PhaseSteps(supported, Rewrite),
      PhaseSteps(supported, Fixup));
  }

  lemma AppendAssociative(x: seq<Step>, a: seq<Step>, b: seq<Step>, c: seq<Step>, d: seq<Step>)
    ensures x + a + b + c + d == x + (a + b + c + d)
  {
  }

  /**
   * The trace the registration order calls for: each phase's processors for
   * the language in registration order, phases in the order Prepare,
   * Scaffold, Rewrite, Fixup, and the default scaffold in place of the
   * Scaffold processors when there are none.
   */
  function ExpectedTrace(ps: seq<Processor>, language: Language): seq<Step>
  {
    StepsOf(Select(ps, language, Prepare))
    + (if Select(ps, language, Scaffold) == [] then [DefaultScaffold] else StepsOf(Select(ps, language, Scaffold)))
    + StepsOf(Select(ps, language, Rewrite))
    + StepsOf(Select(ps, language, Fixup))
  }

  /** Running the grouped processors of a configured language gives the trace registration order calls for. */
  lemma TraceFollowsRegistration(ps: seq<Processor>, language: Language)
    requires language in Group(ps)
    ensures PhaseTrace(Group(ps)[language]) == ExpectedTrace(ps, language)
  {
  }

  /** Steps are in phase order: no step of a later phase comes before one of an earlier phase. */
  ghost predicate InPhaseOrder(t: seq<Step>)
  {
    forall i, j :: 0 <= i < j < |t| ==> Rank(PhaseOf(t[i])) <= Rank(PhaseOf(t[j]))
  }

  /** The steps a selected group contributes come from `ps`'s processors of the language and phase. */
  lemma SelectedSteps(ps: seq<Processor>, language: Language, phase: Phase)
    ensures forall s :: s in StepsOf(Select(ps, language, phase)) ==>
      s.Ran? && s.processor in ps && s.processor.language == language && s.processor.phase == phase
  {
    var sel := Select(ps, language, phase);
    assert forall k :: 0 <= k < |sel| ==> sel[k] in sel;
  }

  /** Every avatar's trace runs the phases in the order Prepare, Scaffold, Rewrite, Fixup. */
  lemma TraceRunsPhasesInOrder(ps: seq<Processor>, language: Language)
    ensures InPhaseOrder(ExpectedTrace(ps, language))
  {
    SelectedSteps(ps, language, Prepare);
    SelectedSteps(ps, language, Scaffold);
    SelectedSteps(ps, language, Rewrite);
    SelectedSteps(ps, language, Fixup);
  }

  /** The steps of `t` that belong to `phase`, in order. */
  function Project(t: seq<Step>, phase: Phase): seq<Step>
  {
    if t == [] then []
    else (if PhaseOf(t[0]) == phase then [t[0]] else []) + Project(t[1..], phase)
  }

  lemma {:induction false} ProjectConcat(a: seq<Step>, b: seq<Step>, phase: Phase)
    ensures Project(a + b, phase) == Project(a, phase) + Project(b, phase)
  {
    if a == [] {
      assert a + b == b;
    } else {
      assert (a + b)[1..] == a[1..] + b;
      ProjectConcat(a[1..], b, phase);
    }
  }

  /** Every step of `t` belongs to `phase`. */
  ghost predicate AllOfPhase(t: seq<Step>, phase: Phase)
  {
    forall i :: 0 <= i < |t| ==> PhaseOf(t[i]) == phase
  }

  lemma SelectedStepsOfPhase(ps: seq<Processor>, language: Language, phase: Phase)
    ensures AllOfPhase(StepsOf(Select(ps, language, phase)), phase)
  {
    var sel := Select(ps, language, phase);
    assert forall k :: 0 <= k < |sel| ==> sel[k] in sel;
  }

  /** Projecting a block whose steps all belong to `of` keeps it whole or drops it whole. */
  lemma {:induction false} ProjectUniform(t: seq<Step>, of: Phase, phase: Phase)
    requires AllOfPhase(t, of)
    ensures Project(t, phase) == if of == phase then t else []
  {
    if t != [] {
      ProjectUniform(t[1..], of, phase);
    }
  }

  /**
   * Within each phase an avatar's trace holds exactly that phase's
   * processors for the language, in registration order; the Scaffold phase
   * holds the default scaffold alone when there is no Scaffold processor.
   */
  lemma {:induction false} TraceRunsEachPhaseInRegistrationOrder(ps: seq<Processor>, language: Language, phase: Phase)
    ensures Project(ExpectedTrace(ps, language), phase) ==
      if phase == Scaffold && Select(ps, language, Scaffold) == [] then [DefaultScaffold]
      else StepsOf(Select(ps, language, phase))
  {
    SelectedStepsOfPhase(ps, language, Prepare);
    SelectedStepsOfPhase(ps, language, Scaffold);
    SelectedStepsOfPhase(ps, language, Rewrite);
    SelectedStepsOfPhase(ps, language, Fixup);
    ProjectBlocks(StepsOf(Select(ps, language, Prepare)),
      if Select(ps, language, Scaffold) == [] then [DefaultScaffold] else StepsOf(Select(ps, language, Scaffold)),
      StepsOf(Select(ps, language, Rewrite)), StepsOf(Select(ps, language, Fixup)), phase);
  }

  /** Projecting four single-phase blocks laid out in phase order picks the block of the phase. */
  lemma ProjectBlocks(a: seq<Step>, b: seq<Step>, c: seq<Step>, d: seq<Step>, phase: Phase)
    requires AllOfPhase(a, Prepare) && AllOfPhase(b, Scaffold) && AllOfPhase(c, Rewrite) && AllOfPhase(d, Fixup)
    ensures Project(a + b + c + d, phase) ==
      match phase case Prepare => a case Scaffold => b case Rewrite => c case Fixup => d
  {
    ProjectUniform(a, Prepare, phase);
    ProjectUniform(b, Scaffold, phase);
    ProjectUniform(c, Rewrite, phase);
    ProjectUniform(d, Fixup, phase);
    ProjectConcat(a, b, phase);
    ProjectConcat(a + b, c, phase);
    ProjectConcat(a + b + c, d, phase);
    var none: seq<Step> := [];
    match phase
    case Prepare => assert a + none + none + none == a;
    case Scaffold => assert none + b + none + none == b;
    case Rewrite => assert none + none + c + none == c;
    case Fixup => assert none + none + none + d == d;
  }

  /**
   * The default scaffold runs exactly when the language has no Scaffold
   * processor, and then no Scaffold processor runs.
   */
  lemma DefaultScaffoldExactlyWhenNoScaffolder(ps: seq<Processor>, language: Language)
    ensures DefaultScaffold in ExpectedTrace(ps, language) <==> Select(ps, language, Scaffold) == []
    ensures DefaultScaffold in ExpectedTrace(ps, language) ==>
      forall s :: s in ExpectedTrace(ps, language) && s.Ran? ==> s.processor.phase != Scaffold
  {
    SelectedSteps(ps, language, Prepare);
    SelectedSteps(ps, language, Rewrite);
    SelectedSteps(ps, language, Fixup);
  }

  /** Every processor an avatar's trace runs is a registered processor of the context's language. */
  lemma TraceRunsOnlyLanguageProcessors(ps: seq<Processor>, language: Language)
    ensures forall s :: s in ExpectedTrace(ps, language) && s.Ran? ==> s.processor in ps && s.processor.language == language
  {
    SelectedSteps(ps, language, Prepare);
    SelectedSteps(ps, language, Scaffold);
    SelectedSteps(ps, language, Rewrite);
    SelectedSteps(ps, language, Fixup);
  }
}
