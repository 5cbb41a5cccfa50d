/**
 When the verbosity level is one the model lists. A model change keeps the level that was chosen for the model before,
 and a default that is not looked up, so it can be one the new model does not have.
 */
module OnboardingVerbosity {
  import opened Prelude
  import opened Onboarding
  import opened OnboardingRuns

  predicate VerbosityListed(f: Flow) {
    f.selections.verbosity.VerbosityLevel? ==>
      f.selections.verbosity.value in FactFor(f.facts, f.selections.model.value).verbosityLevels
  }

  /** The level a model change carries over to the new model. */
  function CarriedLevel(s: Selections): string {
    if s.verbosity.Omitted? then "low" else s.verbosity.value
  }

  /** A model with verbosity is submitted that does not list the level carried over to it. */
  predicate CarriesUnlisted(f: Flow, t: Transition) {
    && t.PrimaryModel? && !Blank(t.value)
    && var fact := FactFor(f.facts, TrimSpace(t.value));
       fact.verbositySupported && CarriedLevel(f.selections) !in fact.verbosityLevels
  }

  lemma NormalizeKeepsChoice(s: Selections, facts: Facts)
    ensures var n := NormalizeReviewerThinking(s, facts); n.model == s.model && n.verbosity == s.verbosity
  {
  }

  lemma FittedChoice(s: Selections, fact: ModelFact)
    ensures var n := Fitted(s, fact);
            && n.model == s.model
            && n.verbosity == if fact.verbositySupported then VerbosityLevel(CarriedLevel(s)) else Omitted
  {
  }

  lemma SubmittedChoice(s: Selections, value: string, facts: Facts)
    requires !Blank(value)
    ensures SubmitPrimaryModel(s, value, facts).Some?
    ensures var n := SubmitPrimaryModel(s, value, facts).value;
            && n.model.value == TrimSpace(value)
            && n.verbosity == if FactFor(facts, TrimSpace(value)).verbositySupported
                              then VerbosityLevel(CarriedLevel(s)) else Omitted
  {
    var model := TrimSpace(value);
    var fact := FactFor(facts, model);
    var named := s.(model := ModelFor(model, facts));
    FittedChoice(named, fact);
    var fitted := Fitted(named, fact);
    NormalizeKeepsChoice(fitted.(context := DefaultContext(fitted, fact)), facts);
  }

  lemma ModelStepChoice(f: Flow, value: string)
    requires WellFormed(f) && Valid(f.selections, f.imports) && !Blank(value)
    ensures var g := After(f, PrimaryModel(value));
            && g.facts == f.facts && g.selections.model.value == TrimSpace(value)
            && g.selections.verbosity == if FactFor(f.facts, TrimSpace(value)).verbositySupported
                                         then VerbosityLevel(CarriedLevel(f.selections)) else Omitted
  {
    SubmittedChoice(f.selections, value, f.facts);
    Commits(f, PrimaryModel(value));
  }

  lemma Commits(f: Flow, t: Transition)
    requires WellFormed(f) && Valid(f.selections, f.imports) && (t.Discovery? ==> ImportsWellFormed(t.imports))
    requires Changed(f, t).Some?
    ensures After(f, t) == f.(selections := Changed(f, t).value, imports := ImportsAfter(f, t))
  {
    TransitionKeepsValid(f, t);
  }

  lemma ModelStepVerbosity(f: Flow, value: string)
    requires WellFormed(f) && Valid(f.selections, f.imports) && !Blank(value)
    ensures VerbosityListed(After(f, PrimaryModel(value))) <==> !CarriesUnlisted(f, PrimaryModel(value))
  {
    ModelStepChoice(f, value);
  }

  lemma ChosenVerbosity(f: Flow, choice: string)
    requires WellFormed(f) && Valid(f.selections, f.imports)
    requires var fact := FactFor(f.facts, f.selections.model.value);
             fact.verbositySupported && choice in fact.verbosityLevels
    ensures var g := After(f, VerbosityChoice(choice));
            g.facts == f.facts && g.selections.verbosity == VerbosityLevel(choice)
  {
    TransitionKeepsValid(f, VerbosityChoice(choice));
  }

  predicate SameChoice(s: Selections, n: Selections) {
    n.model == s.model && n.verbosity == s.verbosity
  }

  /** Steps other than these two leave model and verbosity alone. */
  lemma OtherStepVerbosity(f: Flow, t: Transition)
    requires !t.PrimaryModel? && !t.VerbosityChoice?
    ensures var s := After(f, t).selections;
            After(f, t).facts == f.facts && s.model == f.selections.model && s.verbosity == f.selections.verbosity
  {
    forall s ensures var n := NormalizeReviewerThinking(s, f.facts); n.model == s.model && n.verbosity == s.verbosity {
      NormalizeKeepsChoice(s, f.facts);
    }
    assert Changed(f, t).Some? ==> SameChoice(f.selections, Changed(f, t).value);
  }

  /** After a step the level is listed exactly when it was, or is chosen, and is not carried to a model without it. */
  lemma VerbosityStep(f: Flow, t: Transition)
    requires WellFormed(f) && Valid(f.selections, f.imports) && VerbosityListed(f)
    ensures VerbosityListed(After(f, t)) <==> !CarriesUnlisted(f, t)
  {
    if t.PrimaryModel? {
      if !Blank(t.value) {
        ModelStepVerbosity(f, t.value);
      }
    } else if !t.VerbosityChoice? {
      OtherStepVerbosity(f, t);
    }
  }

  predicate AlwaysListed(f: Flow, ts: seq<Transition>)
    decreases |ts|
  {
    VerbosityListed(f) && (ts != [] ==> AlwaysListed(After(f, ts[0]), ts[1..]))
  }

  predicate NeverCarriesUnlisted(f: Flow, ts: seq<Transition>)
    decreases |ts|
  {
    ts != [] ==> !CarriesUnlisted(f, ts[0]) && NeverCarriesUnlisted(After(f, ts[0]), ts[1..])
  }

  /**
   Through a whole run the verbosity is always one the model lists, exactly when no model with verbosity is submitted
   that lacks the level in force, or lacks "low" when none is.
   */
  lemma {:induction false} VerbosityListedExactly(f: Flow, ts: seq<Transition>)
    requires WellFormed(f) && Valid(f.selections, f.imports) && VerbosityListed(f)
    requires forall i :: 0 <= i < |ts| && ts[i].Discovery? ==> ImportsWellFormed(ts[i].imports)
    ensures AlwaysListed(f, ts) <==> NeverCarriesUnlisted(f, ts)
    decreases |ts|
  {
    if ts != [] {
      VerbosityStep(f, ts[0]);
      TransitionKeepsValid(f, ts[0]);
      if VerbosityListed(After(f, ts[0])) {
        VerbosityListedExactly(After(f, ts[0]), ts[1..]);
      }
    }
  }

  // --- A run that ends with a level the model does not have ---

  const TERSE := ModelFact("terse", true, false, [], true, ["low"], None, None)

  const VERBOSE := ModelFact("verbose", true, false, [], true, ["high"], None, None)

  function TwoModels(): Facts {
    Facts([TERSE, VERBOSE], TERSE, (a: string, b: string) => a == b)
  }

  lemma TwoModelFacts()
    ensures FactFor(TwoModels(), "terse") == TERSE && FactFor(TwoModels(), "verbose") == VERBOSE
    ensures FactsWellFormed(TwoModels()) && !Blank("terse") && !Blank("verbose")
  {
    var facts := TwoModels();
    assert Trimmed("terse") && Trimmed("verbose") && Trimmed("low") && Trimmed("high");
    assert facts.models[1..] == [VERBOSE];
    assert facts.models[0] == TERSE && facts.models[1] == VERBOSE;
  }

  lemma RunOfThree(f: Flow, a: Transition, b: Transition, c: Transition)
    ensures RunAll(f, [a, b, c]) == After(After(After(f, a), b), c)
  {
    var f1, f2 := After(f, a), After(After(f, a), b);
    assert [a, b, c][1..] == [b, c] && [b, c][1..] == [c] && [c][1..] == [];
    assert RunAll(f2, [c]) == RunAll(After(f2, c), []) == After(f2, c);
    assert RunAll(f1, [b, c]) == RunAll(f2, [c]);
    assert RunAll(f, [a, b, c]) == RunAll(f1, [b, c]);
  }

  lemma KeptVerbosity(f: Flow)
    requires f.facts == TwoModels() && WellFormed(f) && Valid(f.selections, f.imports)
    requires f.selections.verbosity == VerbosityLevel("high")
    ensures var g := After(f, PrimaryModel("terse"));
            Fits(g.selections, g.facts) && g.selections.verbosity == VerbosityLevel("high") && !VerbosityListed(g)
  {
    TwoModelFacts();
    TransitionKeepsValid(f, PrimaryModel("terse"));
    ModelStepFits(f.selections, "terse", f.facts);
    ModelStepChoice(f, "terse");
  }

  /** Choosing "high" for a model that has it and then a model that has only "low" keeps "high": every check passes. */
  lemma UnlistedVerbosityIsReachable(f: Flow)
    requires f.facts == TwoModels() && WellFormed(f) && Valid(f.selections, f.imports)
    ensures var ts := [PrimaryModel("verbose"), VerbosityChoice("high"), PrimaryModel("terse")];
            var g := RunAll(f, ts);
            && NeverInternal(f, ts) && Fits(g.selections, g.facts)
            && g.selections.verbosity == VerbosityLevel("high") && !VerbosityListed(g)
  {
    var ts := [PrimaryModel("verbose"), VerbosityChoice("high"), PrimaryModel("terse")];
    SetupNeverCorruptsItself(f, ts);
    TwoModelFacts();
    var f1 := After(f, PrimaryModel("verbose"));
    TransitionKeepsValid(f, PrimaryModel("verbose"));
    ModelStepChoice(f, "verbose");
    var f2 := After(f1, VerbosityChoice("high"));
    TransitionKeepsValid(f1, VerbosityChoice("high"));
    ChosenVerbosity(f1, "high");
    KeptVerbosity(f2);
    RunOfThree(f, ts[0], ts[1], ts[2]);
  }
}
