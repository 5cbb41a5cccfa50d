/** The setup as the program holds it: loops over facts and skills, and selections changed on a copy and committed whole. */
module OnboardingModel {
  import opened Prelude
  import opened Onboarding
  import opened OnboardingRuns

  method FindFact(facts: Facts, model: string) returns (fact: ModelFact)
    ensures fact == FactFor(facts, model)
  {
    var trimmed := TrimSpace(model);
    var i := 0;
    assert facts.models[0..] == facts.models;
    while i < |facts.models|
      invariant i <= |facts.models|
      invariant Lookup(facts, facts.models[i..], trimmed) == FactFor(facts, model)
    {
      assert facts.models[i..][1..] == facts.models[i + 1..];
      if facts.sameFold(TrimSpace(facts.models[i].id), trimmed) {
        return facts.models[i];
      }
      i := i + 1;
    }
    fact := facts.fallback;
  }

  method DefaultsFor(items: seq<Item>) returns (m: map<string, bool>)
    ensures m == InitialEnablement(items)
  {
    m := map[];
    var i := 0;
    while i < |items|
      invariant i <= |items|
      invariant m == InitialEnablement(items[..i])
    {
      assert items[..i + 1][..i] == items[..i];
      m := m[items[i].id := items[i].defaultEnabled];
      i := i + 1;
    }
    assert items[..|items|] == items;
  }

  /** The user's decision for each candidate; refused when one is missing. */
  method EnableSkills(selection: map<string, bool>, items: seq<Item>) returns (m: Option<map<string, bool>>)
    ensures m == Enabled(selection, items)
  {
    var next := map[];
    var i := 0;
    while i < |items|
      invariant i <= |items|
      invariant Enabled(selection, items[..i]) == Some(next)
    {
      assert items[..i + 1][..i] == items[..i];
      if items[i].id !in selection {
        assert items[i].id !in selection;
        return None;
      }
      next := next[items[i].id := selection[items[i].id]];
      i := i + 1;
    }
    assert items[..|items|] == items;
    m := Some(next);
  }

  method FindImport(choices: seq<Choice>, choice: string) returns (i: Option<Import>)
    ensures i == ImportFor(choices, choice)
  {
    var k := 0;
    assert choices[0..] == choices;
    while k < |choices|
      invariant k <= |choices|
      invariant ImportFor(choices[k..], choice) == ImportFor(choices, choice)
    {
      assert choices[k..][1..] == choices[k + 1..];
      if choices[k].optionId == choice {
        return Some(Import(choices[k].mode, choices[k].ref));
      }
      k := k + 1;
    }
    i := None;
  }

  method CheckSkills(enablement: map<string, bool>, items: seq<Item>) returns (covered: bool)
    ensures covered <==> forall i :: 0 <= i < |items| ==> items[i].id in enablement
  {
    var i := 0;
    while i < |items|
      invariant i <= |items|
      invariant forall k :: 0 <= k < i ==> items[k].id in enablement
    {
      if items[i].id !in enablement {
        return false;
      }
      i := i + 1;
    }
    covered := true;
  }

  /** A copy of the selections that a transition works on, field by field. */
  class Draft {
    var selections: Selections

    constructor (s: Selections)
      ensures selections == s
    {
      selections := s;
    }

    method NormalizeReviewer(facts: Facts)
      modifies this
      ensures selections == NormalizeReviewerThinking(old(selections), facts)
    {
      var fact := FindFact(facts, ReviewerModelValue(selections));
      if !fact.supportsThinking {
        if selections.reviewerThinking != OverriddenThinking(ThinkingDisabled) {
          selections := selections.(reviewerThinking := CapabilityDisabled);
        }
        selections := selections.(reviewerEdit := NoEdit);
        return;
      }
      if selections.reviewerThinking.CapabilityDisabled? {
        selections := selections.(reviewerThinking := InheritedThinking);
      }
      if selections.reviewerThinking.OverriddenThinking? {
        var thinking := selections.reviewerThinking.thinking;
        if thinking.Level? && thinking.value !in fact.thinkingLevels {
          selections := selections.(reviewerThinking := OverriddenThinking(CustomLevel(thinking.value)));
        }
      }
    }

    method SubmitModel(value: string, facts: Facts) returns (accepted: bool)
      modifies this
      ensures accepted <==> SubmitPrimaryModel(old(selections), value, facts).Some?
      ensures accepted ==> Some(selections) == SubmitPrimaryModel(old(selections), value, facts)
      ensures !accepted ==> selections == old(selections)
    {
      var model := TrimSpace(value);
      if model == "" {
        return false;
      }
      selections := selections.(model := ModelFor(model, facts));
      var fact := FindFact(facts, model);
      FitTo(fact);
      selections := selections.(context := DefaultContext(selections, fact));
      NormalizeReviewer(facts);
      accepted := true;
    }

    method FitTo(fact: ModelFact)
      modifies this
      ensures selections == Fitted(old(selections), fact)
    {
      if !fact.verbositySupported {
        selections := selections.(verbosity := Omitted);
      } else if selections.verbosity.Omitted? {
        selections := selections.(verbosity := VerbosityLevel("low"));
      }
      if !fact.supportsThinking {
        selections := selections.(thinking := ThinkingDisabled);
        selections := selections.(primaryEdit := NoEdit);
      } else if selections.thinking.Level? && selections.thinking.value !in fact.thinkingLevels {
        selections := selections.(thinking := CustomLevel(selections.thinking.value));
      }
    }
  }

  class SetupFlow {
    const facts: Facts
    var selections: Selections
    var imports: Imports

    function State(): Flow
      reads this
    {
      Flow(selections, facts, imports)
    }

    constructor (selections: Selections, facts: Facts, imports: Imports)
      ensures State() == Flow(selections, facts, imports)
    {
      this.selections, this.facts, this.imports := selections, facts, imports;
    }

    /** Keeps the changed copy if it passes the checks; otherwise nothing changes. */
    method UpdateSelections(next: Option<Selections>) returns (committed: bool, internal: bool)
      modifies this`selections
      ensures committed <==> next.Some? && Valid(next.value, imports)
      ensures internal <==> next.Some? && !Valid(next.value, imports)
      ensures selections == if committed then next.value else old(selections)
    {
      if next.None? {
        return false, false;
      }
      var covered := CheckSkills(next.value.skillEnablement, Candidates(imports, next.value.skillImport));
      if !SelectionsValid(next.value) || !covered {
        return false, true;
      }
      selections := next.value;
      committed, internal := true, false;
    }

    /** What a transition makes of a copy of the selections; a model change works on the copy in place. */
    method Edit(t: Transition) returns (next: Option<Selections>)
      ensures next == Changed(State(), t)
    {
      if t.PrimaryModel? {
        var draft := new Draft(selections);
        var accepted := draft.SubmitModel(t.value, facts);
        next := if accepted then Some(draft.selections) else None;
      } else {
        next := Changed(State(), t);
      }
    }

    /** One transition of a sound setup: committed or refused, never found invalid. */
    method Apply(t: Transition) returns (committed: bool)
      requires WellFormed(State()) && Valid(selections, imports) && !t.Discovery?
      modifies this`selections
      ensures State() == After(old(State()), t)
      ensures committed <==> Changed(old(State()), t).Some?
      ensures WellFormed(State()) && Valid(selections, imports)
    {
      TransitionKeepsValid(State(), t);
      var next := Edit(t);
      var internal: bool;
      committed, internal := UpdateSelections(next);
    }
  }
}
