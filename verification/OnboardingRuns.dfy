/** Setup never corrupts itself, and what is chosen goes with what the models can do. */
module OnboardingRuns {
  import opened Prelude
  import opened Onboarding

  datatype Transition =
    | Theming(theme: Option<Theme>)
    | PrimaryModel(value: string)
    | ContextWindow(choice: string)
    | PrimaryThinking(choice: string)
    | PrimaryCustom(value: string)
    | VerbosityChoice(choice: string)
    | AskQuestion(choice: string)
    | FrequencyChoice(choice: string)
    | ReviewerModelInput(value: string)
    | ReviewerThinkingChoice(choice: string)
    | ReviewerCustom(value: string)
    | CompactionChoice(choice: string)
    | SkillImport(choice: string)
    | CommandImport(choice: string)
    | SkillEnablement(selection: map<string, bool>)
    | Discovery(imports: Imports)

  datatype Flow = Flow(selections: Selections, facts: Facts, imports: Imports)

  /** What a transition makes of the selections; none where it refuses the choice. */
  function Changed(f: Flow, t: Transition): Option<Selections> {
    var s := f.selections;
    match t
    case Theming(theme) => ChooseTheme(s, theme)
    case PrimaryModel(value) => SubmitPrimaryModel(s, value, f.facts)
    case ContextWindow(choice) => ChooseContextWindow(s, choice, f.facts)
    case PrimaryThinking(choice) => ChoosePrimaryThinking(s, choice, f.facts)
    case PrimaryCustom(value) => CommitPrimaryThinking(s, value, f.facts)
    case VerbosityChoice(choice) => ChooseVerbosity(s, choice, f.facts)
    case AskQuestion(choice) => ChooseAskQuestion(s, choice)
    case FrequencyChoice(choice) => ChooseFrequency(s, choice, f.facts)
    case ReviewerModelInput(value) => SubmitReviewerModel(s, value, f.facts)
    case ReviewerThinkingChoice(choice) => ChooseReviewerThinking(s, choice, f.facts)
    case ReviewerCustom(value) => CommitReviewerThinking(s, value)
    case CompactionChoice(choice) => ChooseCompaction(s, choice)
    case SkillImport(choice) => ChooseSkillImport(s, choice, f.imports)
    case CommandImport(choice) => ChooseCommandImport(s, choice, f.imports)
    case SkillEnablement(selection) => ChooseSkillEnablement(s, selection, f.imports)
    case Discovery(imports) => Some(RefreshSkills(s, imports))
  }

  function ImportsAfter(f: Flow, t: Transition): Imports {
    if t.Discovery? then t.imports else f.imports
  }

  datatype Outcome = Committed(flow: Flow) | Refused | InternalError

  /** Work on a copy, check it, and only then keep it. */
  function Update(f: Flow, t: Transition): Outcome {
    var next := Changed(f, t);
    if next.None? then Refused
    else if !Valid(next.value, ImportsAfter(f, t)) then InternalError
    else Committed(f.(selections := next.value, imports := ImportsAfter(f, t)))
  }

  function After(f: Flow, t: Transition): Flow {
    if Update(f, t).Committed? then Update(f, t).flow else f
  }

  // --- Well-formed facts ---

  predicate NoneBlank(levels: seq<string>) {
    forall i :: 0 <= i < |levels| ==> !Blank(levels[i])
  }

  predicate FactWellFormed(fact: ModelFact) {
    NoneBlank(fact.thinkingLevels) && NoneBlank(fact.verbosityLevels)
  }

  predicate FactsWellFormed(facts: Facts) {
    FactWellFormed(facts.fallback) && forall i :: 0 <= i < |facts.models| ==> FactWellFormed(facts.models[i])
  }

  predicate ModesKnown(choices: seq<Choice>) {
    forall i :: 0 <= i < |choices| ==> !choices[i].mode.ImportUnset?
  }

  predicate ImportsWellFormed(imports: Imports) {
    ModesKnown(imports.skillChoices) && ModesKnown(imports.commandChoices)
  }

  predicate WellFormed(f: Flow) {
    && FactsWellFormed(f.facts) && ImportsWellFormed(f.imports)
    && (f.selections.baselineWindow.Some? ==> f.selections.baselineWindow.value <= MAX_UINT32)
  }

  lemma LookupIsWellFormed(facts: Facts, model: string)
    requires FactsWellFormed(facts)
    ensures FactWellFormed(FactFor(facts, model))
  {
    var fact := FactFor(facts, model);
    if fact in facts.models {
      var i :| 0 <= i < |facts.models| && facts.models[i] == fact;
    }
  }

  // --- Normalising the supervisor's thinking ---

  lemma NormalizeIsIdempotent(s: Selections, facts: Facts)
    ensures NormalizeReviewerThinking(NormalizeReviewerThinking(s, facts), facts) == NormalizeReviewerThinking(s, facts)
  {
  }

  /** Normalising touches only the supervisor's thinking and its edit, and keeps them valid. */
  lemma NormalizeKeepsValid(s: Selections, facts: Facts)
    requires SelectionsValid(s)
    ensures var n := NormalizeReviewerThinking(s, facts);
            SelectionsValid(n) && n == s.(reviewerThinking := n.reviewerThinking, reviewerEdit := n.reviewerEdit)
  {
  }

  // --- Every transition keeps the invariant ---

  /** Valid, with the skills, imports and baseline as they were. */
  predicate Keeps(s: Selections, n: Selections) {
    && SelectionsValid(n) && n.skillImport == s.skillImport && n.skillEnablement == s.skillEnablement
    && n.baselineWindow == s.baselineWindow
  }

  lemma TrimmedTwice(s: string)
    ensures TrimSpace(TrimSpace(s)) == TrimSpace(s)
  {
  }

  lemma LowIsNotBlank()
    ensures !Blank("low")
  {
    assert Trimmed("low");
  }

  lemma FittedKeeps(s: Selections, fact: ModelFact)
    requires SelectionsValid(s) && (s.baselineWindow.Some? ==> s.baselineWindow.value <= MAX_UINT32)
    ensures Keeps(s, Fitted(s, fact).(context := DefaultContext(Fitted(s, fact), fact)))
  {
    LowIsNotBlank();
  }

  lemma ModelStepIsValid(s: Selections, value: string, facts: Facts)
    requires SelectionsValid(s) && (s.baselineWindow.Some? ==> s.baselineWindow.value <= MAX_UINT32)
    requires SubmitPrimaryModel(s, value, facts).Some?
    ensures Keeps(s, SubmitPrimaryModel(s, value, facts).value)
  {
    var model := TrimSpace(value);
    TrimmedTwice(value);
    var fact := FactFor(facts, model);
    var named := s.(model := ModelFor(model, facts));
    FittedKeeps(named, fact);
    var fitted := Fitted(named, fact);
    NormalizeKeepsValid(fitted.(context := DefaultContext(fitted, fact)), facts);
  }

  lemma ThinkingStepIsValid(s: Selections, choice: string, facts: Facts)
    requires SelectionsValid(s) && FactsWellFormed(facts) && ChoosePrimaryThinking(s, choice, facts).Some?
    ensures Keeps(s, ChoosePrimaryThinking(s, choice, facts).value)
  {
    LookupIsWellFormed(facts, s.model.value);
    if choice == "disable" {
      NormalizeKeepsValid(s.(thinking := ThinkingDisabled, primaryEdit := NoEdit), facts);
    } else if choice == "custom" {
      NormalizeKeepsValid(s.(primaryEdit := if s.thinking.CustomLevel? then Revisiting else Pending), facts);
    } else {
      NormalizeKeepsValid(s.(thinking := Level(choice), primaryEdit := NoEdit), facts);
    }
  }

  lemma CustomStepIsValid(s: Selections, value: string, facts: Facts)
    requires SelectionsValid(s) && !Blank(value)
    ensures Keeps(s, CommitPrimaryThinking(s, value, facts).value)
  {
    TrimmedTwice(value);
    NormalizeKeepsValid(s.(thinking := CustomLevel(TrimSpace(value)), primaryEdit := NoEdit), facts);
  }

  lemma FrequencyStepIsValid(s: Selections, choice: string, facts: Facts)
    requires SelectionsValid(s) && ChooseFrequency(s, choice, facts).Some?
    ensures Keeps(s, ChooseFrequency(s, choice, facts).value)
  {
    if choice == "off" {
      NormalizeKeepsValid(s.(frequency := Off, reviewerEdit := NoEdit), facts);
    } else {
      NormalizeKeepsValid(s.(frequency := if choice == "edits" then Edits else All), facts);
    }
  }

  lemma ReviewerModelStepIsValid(s: Selections, value: string, facts: Facts)
    requires SelectionsValid(s) && SubmitReviewerModel(s, value, facts).Some?
    ensures Keeps(s, SubmitReviewerModel(s, value, facts).value)
  {
    TrimmedTwice(value);
    var model := TrimSpace(value);
    var reviewer :=
      if model == ReviewerModelValue(s) && s.reviewerModel.OverriddenModel? then s.reviewerModel
      else if model == s.model.value then InheritedModel
      else OverriddenModel(ModelFor(model, facts));
    NormalizeKeepsValid(s.(reviewerModel := reviewer), facts);
  }

  lemma ReviewerThinkingStepIsValid(s: Selections, choice: string, facts: Facts)
    requires SelectionsValid(s) && FactsWellFormed(facts) && ChooseReviewerThinking(s, choice, facts).Some?
    ensures Keeps(s, ChooseReviewerThinking(s, choice, facts).value)
  {
    LookupIsWellFormed(facts, ReviewerModelValue(s));
  }

  lemma ReviewerCustomStepIsValid(s: Selections, value: string)
    requires SelectionsValid(s) && CommitReviewerThinking(s, value).Some?
    ensures Keeps(s, CommitReviewerThinking(s, value).value)
  {
    TrimmedTwice(value);
  }

  // --- Skills stay covered ---

  /** Equal imports offer the same skills. */
  lemma {:induction false} SameImportSameChoice(choices: seq<Choice>, a: Import, b: Import)
    requires SameImport(a, b)
    ensures ChoiceForImport(choices, a) == ChoiceForImport(choices, b)
    decreases |choices|
  {
    if choices != [] {
      SameImportSameChoice(choices[1..], a, b);
    }
  }

  lemma RecomputedIsCovered(s: Selections, imports: Imports)
    ensures SkillsCovered(Recomputed(s, imports), imports)
  {
  }

  lemma SkillImportIsCovered(s: Selections, choice: string, imports: Imports)
    requires SkillsCovered(s, imports) && ChooseSkillImport(s, choice, imports).Some?
    ensures SkillsCovered(ChooseSkillImport(s, choice, imports).value, imports)
  {
    var i := ImportFor(imports.skillChoices, choice).value;
    if SameImport(s.skillImport, i) {
      SameImportSameChoice(imports.skillChoices, s.skillImport, i);
      assert Candidates(imports, i) == Candidates(imports, s.skillImport);
    } else {
      RecomputedIsCovered(s.(skillImport := i), imports);
    }
  }

  lemma ImportStepsAreValid(s: Selections, choice: string, imports: Imports)
    requires SelectionsValid(s) && ImportsWellFormed(imports)
    ensures ChooseSkillImport(s, choice, imports).Some? ==> SelectionsValid(ChooseSkillImport(s, choice, imports).value)
    ensures ChooseCommandImport(s, choice, imports).Some? ==>
              SelectionsValid(ChooseCommandImport(s, choice, imports).value)
  {
  }

  lemma SettingKeeps(s: Selections, theme: Theme, askQuestion: bool, compaction: Compaction)
    requires SelectionsValid(s) && !theme.ThemeUnset? && !compaction.CompactionUnset?
    ensures Keeps(s, s.(theme := theme, askQuestion := askQuestion, compaction := compaction))
  {
  }

  lemma ThemeStepIsValid(s: Selections, theme: Option<Theme>)
    requires SelectionsValid(s) && ChooseTheme(s, theme).Some?
    ensures Keeps(s, ChooseTheme(s, theme).value)
  {
    SettingKeeps(s, theme.value, s.askQuestion, s.compaction);
  }

  lemma AskStepIsValid(s: Selections, choice: string)
    requires SelectionsValid(s) && ChooseAskQuestion(s, choice).Some?
    ensures Keeps(s, ChooseAskQuestion(s, choice).value)
  {
    SettingKeeps(s, s.theme, choice == "yes", s.compaction);
  }

  lemma CompactionStepIsValid(s: Selections, choice: string)
    requires SelectionsValid(s) && ChooseCompaction(s, choice).Some?
    ensures Keeps(s, ChooseCompaction(s, choice).value)
  {
    SettingKeeps(s, s.theme, s.askQuestion,
                 if choice == "local" then Local else if choice == "native" then Native else ManualOnly);
  }

  lemma ContextStepIsValid(s: Selections, choice: string, facts: Facts)
    requires SelectionsValid(s) && (s.baselineWindow.Some? ==> s.baselineWindow.value <= MAX_UINT32)
    ensures ChooseContextWindow(s, choice, facts).Some? ==> Keeps(s, ChooseContextWindow(s, choice, facts).value)
  {
  }

  lemma VerbosityStepIsValid(s: Selections, choice: string, facts: Facts)
    requires SelectionsValid(s) && FactsWellFormed(facts)
    ensures ChooseVerbosity(s, choice, facts).Some? ==> Keeps(s, ChooseVerbosity(s, choice, facts).value)
  {
    LookupIsWellFormed(facts, s.model.value);
  }

  predicate KeepsAll(s: Selections, n: Selections, imports: Imports) {
    SelectionsValid(n) && SkillsCovered(n, imports) && n.baselineWindow == s.baselineWindow
  }

  lemma ModelChangeIsValid(f: Flow, t: Transition)
    requires WellFormed(f) && Valid(f.selections, f.imports) && Changed(f, t).Some?
    requires t.PrimaryModel? || t.PrimaryThinking? || t.PrimaryCustom? || t.FrequencyChoice? || t.ReviewerModelInput?
             || t.ReviewerThinkingChoice? || t.ReviewerCustom?
    ensures Keeps(f.selections, Changed(f, t).value)
  {
    var s := f.selections;
    if t.PrimaryModel? { ModelStepIsValid(s, t.value, f.facts); }
    else if t.PrimaryThinking? { ThinkingStepIsValid(s, t.choice, f.facts); }
    else if t.PrimaryCustom? { CustomStepIsValid(s, t.value, f.facts); }
    else if t.FrequencyChoice? { FrequencyStepIsValid(s, t.choice, f.facts); }
    else if t.ReviewerModelInput? { ReviewerModelStepIsValid(s, t.value, f.facts); }
    else if t.ReviewerThinkingChoice? { ReviewerThinkingStepIsValid(s, t.choice, f.facts); }
    else { ReviewerCustomStepIsValid(s, t.value); }
  }

  lemma SkillChangeIsValid(f: Flow, t: Transition)
    requires WellFormed(f) && Valid(f.selections, f.imports) && Changed(f, t).Some?
    requires t.SkillImport? || t.CommandImport? || t.SkillEnablement?
    ensures KeepsAll(f.selections, Changed(f, t).value, f.imports)
  {
    var s := f.selections;
    if t.SkillImport? {
      ImportStepsAreValid(s, t.choice, f.imports);
      SkillImportIsCovered(s, t.choice, f.imports);
    } else if t.CommandImport? {
      ImportStepsAreValid(s, t.choice, f.imports);
    }
  }

  lemma PlainChangeIsValid(f: Flow, t: Transition)
    requires WellFormed(f) && Valid(f.selections, f.imports) && Changed(f, t).Some?
    requires t.Theming? || t.ContextWindow? || t.VerbosityChoice? || t.AskQuestion? || t.CompactionChoice?
    ensures Keeps(f.selections, Changed(f, t).value)
  {
    if t.Theming? { ThemeStepIsValid(f.selections, t.theme); }
    else if t.AskQuestion? { AskStepIsValid(f.selections, t.choice); }
    else if t.CompactionChoice? { CompactionStepIsValid(f.selections, t.choice); }
    else if t.ContextWindow? { ContextStepIsValid(f.selections, t.choice, f.facts); }
    else { VerbosityStepIsValid(f.selections, t.choice, f.facts); }
  }

  lemma ChangeIsValid(f: Flow, t: Transition)
    requires WellFormed(f) && Valid(f.selections, f.imports) && Changed(f, t).Some?
    ensures KeepsAll(f.selections, Changed(f, t).value, ImportsAfter(f, t))
  {
    if t.SkillImport? || t.CommandImport? || t.SkillEnablement? {
      SkillChangeIsValid(f, t);
    } else if t.Discovery? {
      RecomputedIsCovered(RefreshSkills(f.selections, t.imports), t.imports);
    } else if t.Theming? || t.ContextWindow? || t.VerbosityChoice? || t.AskQuestion? || t.CompactionChoice? {
      PlainChangeIsValid(f, t);
    } else {
      ModelChangeIsValid(f, t);
    }
  }

  /**
   With well-formed facts every transition is either refused or keeps the full invariant, the coverage of the skills
   included: the internal-state error cannot occur.
   */
  lemma TransitionKeepsValid(f: Flow, t: Transition)
    requires WellFormed(f) && Valid(f.selections, f.imports) && (t.Discovery? ==> ImportsWellFormed(t.imports))
    ensures !Update(f, t).InternalError?
    ensures WellFormed(After(f, t)) && Valid(After(f, t).selections, After(f, t).imports)
    ensures Update(f, t).Refused? ==> After(f, t) == f
  {
    if Changed(f, t).Some? {
      ChangeIsValid(f, t);
    }
  }

  // --- Whole runs ---

  function RunAll(f: Flow, ts: seq<Transition>): Flow
    decreases |ts|
  {
    if ts == [] then f else RunAll(After(f, ts[0]), ts[1..])
  }

  predicate NeverInternal(f: Flow, ts: seq<Transition>)
    decreases |ts|
  {
    ts != [] ==> !Update(f, ts[0]).InternalError? && NeverInternal(After(f, ts[0]), ts[1..])
  }

  /** In no run of any transitions, in any order, does the setup report an invalid state of its own making. */
  lemma {:induction false} SetupNeverCorruptsItself(f: Flow, ts: seq<Transition>)
    requires WellFormed(f) && Valid(f.selections, f.imports)
    requires forall i :: 0 <= i < |ts| && ts[i].Discovery? ==> ImportsWellFormed(ts[i].imports)
    ensures NeverInternal(f, ts) && Valid(RunAll(f, ts).selections, RunAll(f, ts).imports)
    decreases |ts|
  {
    if ts != [] {
      TransitionKeepsValid(f, ts[0]);
      SetupNeverCorruptsItself(After(f, ts[0]), ts[1..]);
    }
  }

  // --- Choices that go with the models ---

  predicate Editing(e: Edit) {
    e == Pending || e == Revisiting
  }

  predicate ReviewerCustomised(s: Selections) {
    Editing(s.reviewerEdit) || (s.reviewerThinking.OverriddenThinking? && s.reviewerThinking.thinking.CustomLevel?)
  }

  /** The guard under which the step of a transition is shown. */
  predicate Visible(f: Flow, t: Transition) {
    var s := f.selections;
    var fact := FactFor(f.facts, s.model.value);
    var reviews := !s.frequency.Off? && FactFor(f.facts, ReviewerModelValue(s)).supportsThinking;
    match t
    case ContextWindow(_) => fact.contextWindow.Some? && fact.largeWindow.Some?
    case PrimaryThinking(_) => fact.supportsThinking
    case PrimaryCustom(_) => Editing(s.primaryEdit) || s.thinking.CustomLevel?
    case VerbosityChoice(_) => fact.verbositySupported
    case ReviewerModelInput(_) => !s.frequency.Off?
    case ReviewerThinkingChoice(_) => reviews
    case ReviewerCustom(_) => reviews && ReviewerCustomised(s)
    case _ => true
  }

  predicate Normal(s: Selections, facts: Facts) {
    NormalizeReviewerThinking(s, facts) == s
  }

  /**
   No thinking for a model without it, a level only if the model lists it, a verbosity exactly if the model has one, the
   large window only if there is one. Whether the verbosity level is a listed one is another matter.
   */
  predicate PrimaryFits(s: Selections, facts: Facts) {
    var fact := FactFor(facts, s.model.value);
    && (if fact.supportsThinking then s.thinking.Level? ==> s.thinking.value in fact.thinkingLevels
        else s.thinking.ThinkingDisabled? && s.primaryEdit.NoEdit?)
    && (s.verbosity.Omitted? <==> !fact.verbositySupported)
    && (s.context.ContextLarge? ==> fact.largeWindow.Some?)
  }

  predicate Fits(s: Selections, facts: Facts) {
    PrimaryFits(s, facts) && Normal(s, facts)
  }

  /** What normalising leaves alone. */
  lemma NormalizedFits(s: Selections, facts: Facts)
    requires PrimaryFits(s, facts)
    ensures Fits(NormalizeReviewerThinking(s, facts), facts)
  {
    NormalizeIsIdempotent(s, facts);
  }

  /** A model change turns a level the new model does not list into a custom one, and drops what it cannot do. */
  lemma ModelStepFits(s: Selections, value: string, facts: Facts)
    requires SubmitPrimaryModel(s, value, facts).Some?
    ensures Fits(SubmitPrimaryModel(s, value, facts).value, facts)
  {
    var model := TrimSpace(value);
    TrimmedTwice(value);
    var fact := FactFor(facts, model);
    var fitted := Fitted(s.(model := ModelFor(model, facts)), fact);
    NormalizedFits(fitted.(context := DefaultContext(fitted, fact)), facts);
  }

  lemma PrimaryThinkingFits(f: Flow, choice: string)
    requires Fits(f.selections, f.facts) && Visible(f, PrimaryThinking(choice))
    ensures Changed(f, PrimaryThinking(choice)).Some? ==> Fits(Changed(f, PrimaryThinking(choice)).value, f.facts)
  {
    var s := f.selections;
    NormalizedIf(s.(thinking := ThinkingDisabled, primaryEdit := NoEdit), f.facts);
    NormalizedIf(s.(primaryEdit := if s.thinking.CustomLevel? then Revisiting else Pending), f.facts);
    NormalizedIf(s.(thinking := Level(choice), primaryEdit := NoEdit), f.facts);
  }

  lemma NormalizedIf(s: Selections, facts: Facts)
    ensures PrimaryFits(s, facts) ==> Fits(NormalizeReviewerThinking(s, facts), facts)
  {
    if PrimaryFits(s, facts) {
      NormalizedFits(s, facts);
    }
  }

  lemma PrimaryCustomFits(f: Flow, value: string)
    requires Fits(f.selections, f.facts) && Visible(f, PrimaryCustom(value)) && !Blank(value)
    ensures Fits(Changed(f, PrimaryCustom(value)).value, f.facts)
  {
    NormalizedFits(f.selections.(thinking := CustomLevel(TrimSpace(value)), primaryEdit := NoEdit), f.facts);
  }

  lemma FrequencyKeepsPrimary(s: Selections, frequency: Frequency, edit: Edit, facts: Facts)
    requires PrimaryFits(s, facts)
    ensures Fits(NormalizeReviewerThinking(s.(frequency := frequency, reviewerEdit := edit), facts), facts)
  {
    NormalizedFits(s.(frequency := frequency, reviewerEdit := edit), facts);
  }

  lemma FrequencyFits(f: Flow, choice: string)
    requires PrimaryFits(f.selections, f.facts) && Changed(f, FrequencyChoice(choice)).Some?
    ensures Fits(Changed(f, FrequencyChoice(choice)).value, f.facts)
  {
    var s := f.selections;
    if choice == "off" {
      FrequencyKeepsPrimary(s, Off, NoEdit, f.facts);
    } else if choice == "edits" {
      FrequencyKeepsPrimary(s, Edits, s.reviewerEdit, f.facts);
    } else {
      FrequencyKeepsPrimary(s, All, s.reviewerEdit, f.facts);
    }
  }

  lemma ReviewerModelFits(f: Flow, value: string)
    requires Fits(f.selections, f.facts) && Changed(f, ReviewerModelInput(value)).Some?
    ensures Fits(Changed(f, ReviewerModelInput(value)).value, f.facts)
  {
    var s := f.selections;
    var model := TrimSpace(value);
    var reviewer :=
      if model == ReviewerModelValue(s) && s.reviewerModel.OverriddenModel? then s.reviewerModel
      else if model == s.model.value then InheritedModel
      else OverriddenModel(ModelFor(model, f.facts));
    NormalizedFits(s.(reviewerModel := reviewer), f.facts);
  }

  /** With thinking supported, any supervisor's thinking but a level it lacks is normal. */
  lemma ReviewerFits(s: Selections, thinking: ReviewerThinking, edit: Edit, facts: Facts)
    requires PrimaryFits(s, facts)
    requires FactFor(facts, ReviewerModelValue(s)).supportsThinking && !thinking.CapabilityDisabled?
    requires thinking.OverriddenThinking? && thinking.thinking.Level? ==>
               thinking.thinking.value in FactFor(facts, ReviewerModelValue(s)).thinkingLevels
    ensures Fits(s.(reviewerThinking := thinking, reviewerEdit := edit), facts)
  {
  }

  predicate ReviewerAllowed(s: Selections, n: Selections, facts: Facts) {
    && n == s.(reviewerThinking := n.reviewerThinking, reviewerEdit := n.reviewerEdit)
    && !n.reviewerThinking.CapabilityDisabled?
    && (n.reviewerThinking.OverriddenThinking? && n.reviewerThinking.thinking.Level? ==>
          n.reviewerThinking.thinking.value in FactFor(facts, ReviewerModelValue(s)).thinkingLevels)
  }

  lemma ReviewerChoiceAllowed(s: Selections, choice: string, facts: Facts)
    requires Normal(s, facts) && FactFor(facts, ReviewerModelValue(s)).supportsThinking
    requires ChooseReviewerThinking(s, choice, facts).Some?
    ensures ReviewerAllowed(s, ChooseReviewerThinking(s, choice, facts).value, facts)
  {
  }

  lemma ReviewerCustomAllowed(s: Selections, value: string, facts: Facts)
    requires Normal(s, facts) && FactFor(facts, ReviewerModelValue(s)).supportsThinking
    requires CommitReviewerThinking(s, value).Some?
    ensures ReviewerAllowed(s, CommitReviewerThinking(s, value).value, facts)
  {
  }

  lemma ReviewerStepFits(f: Flow, t: Transition)
    requires Fits(f.selections, f.facts) && Visible(f, t) && Changed(f, t).Some?
    requires t.ReviewerThinkingChoice? || t.ReviewerCustom?
    ensures Fits(Changed(f, t).value, f.facts)
  {
    if t.ReviewerCustom? {
      ReviewerCustomAllowed(f.selections, t.value, f.facts);
    } else {
      ReviewerChoiceAllowed(f.selections, t.choice, f.facts);
    }
    var n := Changed(f, t).value;
    ReviewerFits(f.selections, n.reviewerThinking, n.reviewerEdit, f.facts);
  }

  /** The models, thinking, verbosity and context are as they were. */
  predicate SameModels(s: Selections, n: Selections) {
    && n.model == s.model && n.thinking == s.thinking && n.verbosity == s.verbosity && n.context == s.context
    && n.primaryEdit == s.primaryEdit && n.reviewerModel == s.reviewerModel
    && n.reviewerThinking == s.reviewerThinking && n.reviewerEdit == s.reviewerEdit
  }

  lemma SameModelsFit(s: Selections, n: Selections, facts: Facts)
    requires Fits(s, facts) && SameModels(s, n)
    ensures Fits(n, facts)
  {
  }

  lemma ContextFits(s: Selections, choice: string, facts: Facts)
    requires Fits(s, facts) && ChooseContextWindow(s, choice, facts).Some?
    ensures Fits(ChooseContextWindow(s, choice, facts).value, facts)
  {
    NormalIgnoresOwn(s, s.verbosity, ChooseContextWindow(s, choice, facts).value.context, facts);
  }

  lemma VerbosityFits(s: Selections, choice: string, facts: Facts)
    requires Fits(s, facts) && ChooseVerbosity(s, choice, facts).Some?
    ensures Fits(ChooseVerbosity(s, choice, facts).value, facts)
  {
    NormalIgnoresOwn(s, VerbosityLevel(choice), s.context, facts);
  }

  lemma NormalIgnoresOwn(s: Selections, verbosity: Verbosity, context: Context, facts: Facts)
    requires Normal(s, facts)
    ensures Normal(s.(verbosity := verbosity, context := context), facts)
  {
  }

  lemma VisibleStepFits(f: Flow, t: Transition)
    requires Fits(f.selections, f.facts) && Visible(f, t) && Changed(f, t).Some?
    ensures Fits(Changed(f, t).value, f.facts)
  {
    if t.PrimaryModel? { ModelStepFits(f.selections, t.value, f.facts); }
    else if t.PrimaryThinking? { PrimaryThinkingFits(f, t.choice); }
    else if t.PrimaryCustom? { PrimaryCustomFits(f, t.value); }
    else if t.FrequencyChoice? { FrequencyFits(f, t.choice); }
    else if t.ReviewerModelInput? { ReviewerModelFits(f, t.value); }
    else if t.ReviewerThinkingChoice? || t.ReviewerCustom? { ReviewerStepFits(f, t); }
    else if t.ContextWindow? { ContextFits(f.selections, t.choice, f.facts); }
    else if t.VerbosityChoice? { VerbosityFits(f.selections, t.choice, f.facts); }
    else { SameModelsFit(f.selections, Changed(f, t).value, f.facts); }
  }

  predicate AllVisible(f: Flow, ts: seq<Transition>)
    decreases |ts|
  {
    ts != [] ==> Visible(f, ts[0]) && AllVisible(After(f, ts[0]), ts[1..])
  }

  lemma {:induction false} RunFits(f: Flow, ts: seq<Transition>)
    requires Fits(f.selections, f.facts) && AllVisible(f, ts)
    ensures Fits(RunAll(f, ts).selections, f.facts)
    decreases |ts|
  {
    if ts != [] {
      if Update(f, ts[0]).Committed? {
        VisibleStepFits(f, ts[0]);
      }
      RunFits(After(f, ts[0]), ts[1..]);
    }
  }

  /**
   Once a model has been chosen, every state reached through steps that are shown has thinking only for a model that
   thinks, a picked level only if the model lists it, a verbosity exactly if the model has one and the large window only
   if there is one, and a supervisor's thinking that normalising leaves as it is.
   */
  lemma ChoicesFitTheModels(f: Flow, model: string, ts: seq<Transition>)
    requires WellFormed(f) && Valid(f.selections, f.imports) && !Blank(model)
    requires AllVisible(After(f, PrimaryModel(model)), ts)
    ensures Fits(RunAll(After(f, PrimaryModel(model)), ts).selections, f.facts)
  {
    TransitionKeepsValid(f, PrimaryModel(model));
    ModelStepFits(f.selections, model, f.facts);
    RunFits(After(f, PrimaryModel(model)), ts);
  }

  /** Without the guard the fixpoint is lost: asking for a custom supervisor level where the model has no thinking. */
  lemma HiddenStepBreaksFixpoint(f: Flow)
    requires Fits(f.selections, f.facts) && !FactFor(f.facts, ReviewerModelValue(f.selections)).supportsThinking
    ensures Changed(f, ReviewerThinkingChoice("custom")).Some?
    ensures !Normal(Changed(f, ReviewerThinkingChoice("custom")).value, f.facts)
  {
  }
}
