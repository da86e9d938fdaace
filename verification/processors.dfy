/**
 * Processors as the generator sees them: a record of which transform it is,
 * the language it applies to and the phase it runs in.  The transform itself
 * is opaque; the generator only groups processors and runs them in order.
 */
module Processors {

  /** A Roslyn language name. */
  type Language = string

  const CSharp: Language := "C#"

  /** The four phases, run in this order for every avatar. */
  datatype Phase = Prepare | Scaffold | Rewrite | Fixup

  /** Position of a phase in the fixed order in which the generator runs them. */
  function Rank(phase: Phase): nat
  {
    match phase
    case Prepare => 0
    case Scaffold => 1
    case Rewrite => 2
    case Fixup => 3
  }

  /** Which transform a processor performs: the built-in ones, or one registered by an embedder. */
  datatype ProcessorKind =
    | DefaultImports | CSharpRewrite | CSharpAvatar | CSharpGenerated
    | FixupImports | CSharpFileHeader | CSharpPragmas
    | Custom(id: nat)

  datatype Processor = Processor(kind: ProcessorKind, language: Language, phase: Phase)

  /** Processors for one language and phase, grouped by language, then by phase. */
  type Grouping = map<Language, map<Phase, seq<Processor>>>

  /** Is `p` registered for this language and phase? */
  predicate Matches(p: Processor, language: Language, phase: Phase)
  {
    p.language == language && p.phase == phase
  }

  /**
   * The processors of `ps` registered for `language` in `phase`, in
   * registration order (what the two nested GroupBy calls collect per group).
   */
  function Select(ps: seq<Processor>, language: Language, phase: Phase): (r: seq<Processor>)
    ensures |r| <= |ps|
    ensures forall p :: p in r ==> p in ps && Matches(p, language, phase)
    ensures r == [] <==> forall p :: p in ps ==> !Matches(p, language, phase)
  {
    if ps == [] then []
    else
      var last := ps[|ps| - 1];
      var init := ps[..|ps| - 1];
      assert forall p :: p in ps <==> p in init || p == last;
      Select(init, language, phase) + (if Matches(last, language, phase) then [last] else [])
  }

  /**
   * The positions in `ps` of the processors that `Select` picks, in
   * increasing order: the groups keep registration order.
   */
  function SelectedIndices(ps: seq<Processor>, language: Language, phase: Phase): (idx: seq<nat>)
    ensures |idx| == |Select(ps, language, phase)|
    ensures forall k :: 0 <= k < |idx| ==> idx[k] < |ps| && ps[idx[k]] == Select(ps, language, phase)[k]
    ensures forall k, l :: 0 <= k < l < |idx| ==> idx[k] < idx[l]
  {
    if ps == [] then []
    else
      var init := ps[..|ps| - 1];
      var head := SelectedIndices(init, language, phase);
      assert Select(ps, language, phase) == Select(init, language, phase) + (if Matches(ps[|ps| - 1], language, phase) then [ps[|ps| - 1]] else []);
      assert forall i :: 0 <= i < |init| ==> init[i] == ps[i];
      head + (if Matches(ps[|ps| - 1], language, phase) then [|ps| - 1] else [])
  }

  /** `Select` drops no matching processor: every matching position is selected. */
  lemma {:induction false} SelectedIndicesComplete(ps: seq<Processor>, language: Language, phase: Phase, i: nat)
    requires i < |ps| && Matches(ps[i], language, phase)
    ensures i in SelectedIndices(ps, language, phase)
  {
    var init := ps[..|ps| - 1];
    if i < |init| {
      assert init[i] == ps[i];
      SelectedIndicesComplete(init, language, phase, i);
    }
  }

  /** The languages that some processor is registered for. */
  function LanguagesOf(ps: seq<Processor>): set<Language>
  {
    set p | p in ps :: p.language
  }

  /** The phases that some processor of `language` runs in. */
  function PhasesOf(ps: seq<Processor>, language: Language): set<Phase>
  {
    set p | p in ps && p.language == language :: p.phase
  }

  /**
   * `g` groups `ps` by language and then by phase: exactly the languages and
   * phases that have processors are keys, and each group lists its
   * processors in registration order.
   */
  ghost predicate IsGroupingOf(g: Grouping, ps: seq<Processor>)
  {
    && (forall language :: language in g <==> exists p :: p in ps && p.language == language)
    && (forall language, phase :: language in g ==> (phase in g[language] <==> Select(ps, language, phase) != []))
    && (forall language, phase :: language in g && phase in g[language] ==> g[language][phase] == Select(ps, language, phase))
  }

  /** The configured-processors dictionary the generator builds once from its processors. */
  function Group(ps: seq<Processor>): (g: Grouping)
    ensures IsGroupingOf(g, ps)
  {
    map language | language in LanguagesOf(ps) ::
      map phase | phase in PhasesOf(ps, language) :: Select(ps, language, phase)
  }
}
