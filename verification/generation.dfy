/**
 * One generation run: the avatar receiver's invocations are resolved and
 * filtered into candidates (lists of type arguments), and each candidate
 * whose derived name has not been emitted yet is run through the pipeline
 * of the context's language and emitted under that name.
 */
module Generation {
  import opened Wrappers
  import opened Symbols
  import opened Processors
  import opened Pipeline
  import opened Receivers

  /**
   * What the semantic model says about a recorded invocation: whether it
   * binds to a method carrying the generator attribute, and the symbol each
   * type argument binds to (None where it is not a named type).
   */
  datatype Resolution = Resolution(isGeneratorMethod: bool, typeArguments: seq<Option<TypeSymbol>>)

  /** The naming convention: the name of the avatar for a list of target types. */
  type NamingConvention = seq<TypeSymbol> -> string

  /** One emitted source: the hint name it is added under and the avatar's syntax. */
  datatype Source = Source(name: string, syntax: Syntax)

  /** The generation loop's state: the names emitted so far and the sources added so far. */
  datatype RunState = RunState(avatars: set<string>, emitted: seq<Source>)

  predicate AllGeneratable(args: seq<Option<TypeSymbol>>)
  {
    forall k :: 0 <= k < |args| ==> CanGenerateFor(args[k])
  }

  /** The type arguments as non-null symbols, once all of them passed `CanGenerateFor`. */
  function Unwrapped(args: seq<Option<TypeSymbol>>): (r: seq<TypeSymbol>)
    requires AllGeneratable(args)
    ensures |r| == |args| && forall k :: 0 <= k < |args| ==> args[k] == Some(r[k])
  {
    seq(|args|, k requires 0 <= k < |args| => args[k].value)
  }

  /** Does this resolution yield candidate `c`? */
  predicate Yields(res: Resolution, c: seq<TypeSymbol>)
  {
    res.isGeneratorMethod && AllGeneratable(res.typeArguments) && Unwrapped(res.typeArguments) == c
  }

  /**
   * The candidates, in invocation order: invocations of generator methods
   * all of whose type arguments the generator can generate for.
   */
  function Candidates(invocations: seq<RecordedInvocation>, semantic: RecordedInvocation -> Resolution): (r: seq<seq<TypeSymbol>>)
    ensures |r| <= |invocations|
    ensures forall c, k :: c in r && 0 <= k < |c| ==> CanGenerateFor(Some(c[k]))
  {
    if invocations == [] then []
    else
      var res := semantic(invocations[0]);
      var rest := Candidates(invocations[1..], semantic);
      if res.isGeneratorMethod && AllGeneratable(res.typeArguments) then
        assert forall k :: 0 <= k < |res.typeArguments| ==> CanGenerateFor(Some(Unwrapped(res.typeArguments)[k]));
        [Unwrapped(res.typeArguments)] + rest
      else rest
  }

  /** A list is a candidate exactly when some recorded invocation resolves to it and passes the filter. */
  lemma {:induction false} CandidatesExactly(invocations: seq<RecordedInvocation>, semantic: RecordedInvocation -> Resolution, c: seq<TypeSymbol>)
    ensures c in Candidates(invocations, semantic) <==>
      exists i :: 0 <= i < |invocations| && Yields(semantic(invocations[i]), c)
  {
    if invocations != [] {
      var tail := invocations[1..];
      CandidatesExactly(tail, semantic, c);
      assert forall i :: 0 <= i < |tail| ==> tail[i] == invocations[i + 1];
      if exists i :: 0 <= i < |invocations| && Yields(semantic(invocations[i]), c) {
        var i :| 0 <= i < |invocations| && Yields(semantic(invocations[i]), c);
        if i > 0 { assert Yields(semantic(tail[i - 1]), c); }
      }
    }
  }

  /** Candidates keep invocation order: resolving two stretches of invocations concatenates their candidates. */
  lemma {:induction false} CandidatesConcat(a: seq<RecordedInvocation>, b: seq<RecordedInvocation>, semantic: RecordedInvocation -> Resolution)
    ensures Candidates(a + b, semantic) == Candidates(a, semantic) + Candidates(b, semantic)
  {
    if a == [] {
      assert a + b == b;
    } else {
      assert (a + b)[0] == a[0];
      assert (a + b)[1..] == a[1..] + b;
      CandidatesConcat(a[1..], b, semantic);
    }
  }

  /**
   * The state after the loop has gone over `candidates`, starting from the
   * name set `seen`: a candidate whose name was already emitted is skipped,
   * and so is every candidate when the language has no processors;
   * otherwise it is run through the language's phases, its name recorded
   * and its source emitted.
   */
  function Emission(configured: Grouping, language: Language, naming: NamingConvention,
                    candidates: seq<seq<TypeSymbol>>, seen: set<string>): RunState
  {
    if candidates == [] then RunState(seen, [])
    else
      var st := Emission(configured, language, naming, candidates[..|candidates| - 1], seen);
      var candidate := candidates[|candidates| - 1];
      var name := naming(candidate);
      if name in st.avatars || language !in configured then st
      else
        RunState(st.avatars + {name},
                 st.emitted + [Source(name, Syntax(name, candidate, PhaseTrace(configured[language])))])
  }

  /** The generation loop over the candidates, with an initially empty set of emitted names. */
  method EmitAvatars(configured: Grouping, language: Language, naming: NamingConvention, candidates: seq<seq<TypeSymbol>>)
    returns (avatars: set<string>, emitted: seq<Source>)
    ensures RunState(avatars, emitted) == Emission(configured, language, naming, candidates, {})
  {
    avatars := {};
    emitted := [];
    for i := 0 to |candidates|
      invariant RunState(avatars, emitted) == Emission(configured, language, naming, candidates[..i], {})
    {
      assert candidates[..i + 1][..i] == candidates[..i] && candidates[..i + 1][i] == candidates[i];
      var candidate := candidates[i];
      var name := naming(candidate);
      if name in avatars {
        continue;
      }
      var syntax := CreateSyntax(name, candidate);
      if language !in configured {
        continue;
      }
      syntax := ProcessCandidate(configured[language], name, syntax);
      assert syntax == Syntax(name, candidate, PhaseTrace(configured[language]));
      avatars := avatars + {name};
      emitted := emitted + [Source(name, syntax)];
    }
    assert candidates[..|candidates|] == candidates;
  }

  /** The names of the emitted sources. */
  function EmittedNames(emitted: seq<Source>): set<string>
  {
    set s | s in emitted :: s.name
  }

  /**
   * No name is emitted twice, nor one that was seen before the run; the
   * name set holds exactly the names seen before and the names emitted.
   */
  lemma {:induction false} EmittedAtMostOnce(configured: Grouping, language: Language, naming: NamingConvention,
                                             candidates: seq<seq<TypeSymbol>>, seen: set<string>)
    ensures var st := Emission(configured, language, naming, candidates, seen);
      && st.avatars == seen + EmittedNames(st.emitted)
      && (forall k :: 0 <= k < |st.emitted| ==> st.emitted[k].name !in seen)
      && (forall k, l :: 0 <= k < l < |st.emitted| ==> st.emitted[k].name != st.emitted[l].name)
  {
    if candidates != [] {
      var init := candidates[..|candidates| - 1];
      EmittedAtMostOnce(configured, language, naming, init, seen);
      var st := Emission(configured, language, naming, init, seen);
      var name := naming(candidates[|candidates| - 1]);
      if !(name in st.avatars || language !in configured) {
        forall k | 0 <= k < |st.emitted| ensures st.emitted[k].name != name {
          assert st.emitted[k] in st.emitted;
        }
      }
    }
  }

  /** When the context's language has no processors, nothing is emitted and no name is recorded. */
  lemma {:induction false} UnconfiguredLanguageEmitsNothing(configured: Grouping, language: Language, naming: NamingConvention,
                                                            candidates: seq<seq<TypeSymbol>>, seen: set<string>)
    requires language !in configured
    ensures Emission(configured, language, naming, candidates, seen) == RunState(seen, [])
  {
    if candidates != [] {
      UnconfiguredLanguageEmitsNothing(configured, language, naming, candidates[..|candidates| - 1], seen);
    }
  }

  /** The names the naming convention gives the candidates, in order. */
  function NamesOf(naming: NamingConvention, candidates: seq<seq<TypeSymbol>>): (r: seq<string>)
    ensures |r| == |candidates| && forall i :: 0 <= i < |candidates| ==> r[i] == naming(candidates[i])
  {
    seq(|candidates|, i requires 0 <= i < |candidates| => naming(candidates[i]))
  }

  /** The position where `name` first occurs. */
  function FirstIndex(names: seq<string>, name: string): (r: nat)
    requires name in names
    ensures r < |names| && names[r] == name && forall j :: 0 <= j < r ==> names[j] != name
  {
    if names[0] == name then 0 else 1 + FirstIndex(names[1..], name)
  }

  /**
   * With processors for the language, every candidate's name ends up
   * recorded, and a name is emitted exactly when it is some candidate's name
   * and was not seen before the run.
   */
  lemma {:induction false} EveryNewNameEmitted(configured: Grouping, language: Language, naming: NamingConvention,
                                               candidates: seq<seq<TypeSymbol>>, seen: set<string>)
    requires language in configured
    ensures var st := Emission(configured, language, naming, candidates, seen);
      && (forall i :: 0 <= i < |candidates| ==> naming(candidates[i]) in st.avatars)
      && (forall name :: name in EmittedNames(st.emitted) <==> name !in seen && name in NamesOf(naming, candidates))
  {
    EmittedAtMostOnce(configured, language, naming, candidates, seen);
    if candidates != [] {
      var init := candidates[..|candidates| - 1];
      EveryNewNameEmitted(configured, language, naming, init, seen);
      assert forall i :: 0 <= i < |init| ==> init[i] == candidates[i];
      assert forall name :: name in NamesOf(naming, candidates) <==>
        name in NamesOf(naming, init) || name == naming(candidates[|candidates| - 1]) by {
        forall name ensures name in NamesOf(naming, candidates) ==>
          name in NamesOf(naming, init) || name == naming(candidates[|candidates| - 1]) {
          if name in NamesOf(naming, candidates) {
            var i :| 0 <= i < |candidates| && NamesOf(naming, candidates)[i] == name;
            if i < |init| { assert NamesOf(naming, init)[i] == name; }
          }
        }
        forall name ensures name in NamesOf(naming, init) ==> name in NamesOf(naming, candidates) {
          if name in NamesOf(naming, init) {
            var i :| 0 <= i < |init| && NamesOf(naming, init)[i] == name;
            assert NamesOf(naming, candidates)[i] == name;
          }
        }
      }
    }
  }

  /**
   * With processors for the language, each emitted source is the avatar of
   * the first candidate carrying its name, run through the language's
   * phases; and sources are emitted in the order in which their names first
   * occur among the candidates.
   */
  lemma {:induction false} EmittedFromFirstCandidate(configured: Grouping, language: Language, naming: NamingConvention,
                                                     candidates: seq<seq<TypeSymbol>>, seen: set<string>)
    requires language in configured
    ensures var st := Emission(configured, language, naming, candidates, seen);
      var names := NamesOf(naming, candidates);
      && (forall k :: 0 <= k < |st.emitted| ==>
            && st.emitted[k].name in names
            && st.emitted[k].syntax == Syntax(st.emitted[k].name, candidates[FirstIndex(names, st.emitted[k].name)],
                                              PhaseTrace(configured[language])))
      && (forall k, l :: 0 <= k < l < |st.emitted| ==>
            FirstIndex(names, st.emitted[k].name) < FirstIndex(names, st.emitted[l].name))
  {
    if candidates != [] {
      var n := |candidates| - 1;
      var init := candidates[..n];
      var names := NamesOf(naming, candidates);
      var initNames := NamesOf(naming, init);
      assert initNames == names[..n];
      EmittedFromFirstCandidate(configured, language, naming, init, seen);
      EveryNewNameEmitted(configured, language, naming, init, seen);
      var st := Emission(configured, language, naming, init, seen);
      forall x | x in initNames ensures x in names && FirstIndex(names, x) == FirstIndex(initNames, x) {
        var a, b := FirstIndex(names, x), FirstIndex(initNames, x);
        assert names[b] == x;
      }
      forall k | 0 <= k < |st.emitted| ensures st.emitted[k].name in initNames && FirstIndex(initNames, st.emitted[k].name) < n { }
      var name := naming(candidates[n]);
      if name !in st.avatars {
        assert name !in initNames;
        assert FirstIndex(names, name) == n;
      }
    }
  }
}
