/**
 What the screens of the setup show as chosen, and what is in force: after a step both are what the user chose, with one
 exception for the supervisor's thinking.
 */
module OnboardingScreens {
  import opened Prelude
  import opened Onboarding
  import opened OnboardingRuns

  datatype Screen =
    | ThemeScreen | ModelScreen | ContextScreen | ThinkingScreen | CustomScreen | VerbosityScreen | AskScreen
    | FrequencyScreen | ReviewerModelScreen | ReviewerThinkingScreen | CompactionScreen

  /** The screen of a step, for the steps that choose one value. */
  function ScreenOf(t: Transition): Option<Screen> {
    match t
    case Theming(_) => Some(ThemeScreen)
    case PrimaryModel(_) => Some(ModelScreen)
    case ContextWindow(_) => Some(ContextScreen)
    case PrimaryThinking(_) => Some(ThinkingScreen)
    case PrimaryCustom(_) => Some(CustomScreen)
    case VerbosityChoice(_) => Some(VerbosityScreen)
    case AskQuestion(_) => Some(AskScreen)
    case FrequencyChoice(_) => Some(FrequencyScreen)
    case ReviewerModelInput(_) => Some(ReviewerModelScreen)
    case ReviewerThinkingChoice(_) => Some(ReviewerThinkingScreen)
    case CompactionChoice(_) => Some(CompactionScreen)
    case _ => None
  }

  // --- The screens ---

  /** The thinking levels on offer: none is called disable, and a level can be typed in. */
  predicate ThinkingOffered(levels: seq<string>, choice: string) {
    (choice == "disable" && "none" in levels) || (choice in levels && choice != "none") || choice == "custom"
  }

  function ShownThinking(levels: seq<string>, custom: bool, disabled: bool, value: string): string {
    var option := if custom then "custom" else if disabled || value == "none" then "disable" else value;
    if ThinkingOffered(levels, option) then option else "custom"
  }

  function ThemeId(theme: Theme): string {
    match theme
    case Auto => "auto"
    case Light => "light"
    case Dark => "dark"
    case ThemeUnset => ""
  }

  function ContextId(c: Context): string {
    match c
    case ContextDefault => "default"
    case ContextLarge => "large"
    case ContextCustom(_) => "custom"
  }

  function FrequencyId(f: Frequency): string {
    match f
    case Off => "off"
    case Edits => "edits"
    case All => "all"
    case FrequencyUnset => ""
  }

  function CompactionId(c: Compaction): string {
    match c
    case Native => "native"
    case ManualOnly => "none"
    case _ => "local"
  }

  /** What the screen has chosen, or filled in, when it opens. */
  function Prefill(s: Selections, facts: Facts, screen: Screen): string {
    match screen
    case ThemeScreen => ThemeId(s.theme)
    case ModelScreen => s.model.value
    case ContextScreen => ContextId(s.context)
    case ThinkingScreen =>
      ShownThinking(FactFor(facts, s.model.value).thinkingLevels, Editing(s.primaryEdit) || s.thinking.CustomLevel?,
                    s.thinking.ThinkingDisabled?, ThinkingValue(s.thinking))
    case CustomScreen => if s.primaryEdit != Pending && s.thinking.CustomLevel? then s.thinking.value else ""
    case VerbosityScreen => if s.verbosity.VerbosityLevel? then s.verbosity.value else ""
    case AskScreen => if s.askQuestion then "yes" else "no"
    case FrequencyScreen => FrequencyId(s.frequency)
    case ReviewerModelScreen => ReviewerModelValue(s)
    case ReviewerThinkingScreen =>
      ShownThinking(FactFor(facts, ReviewerModelValue(s)).thinkingLevels, ReviewerCustomised(s),
                    s.reviewerThinking == OverriddenThinking(ThinkingDisabled), ReviewerThinkingValue(s))
    case CompactionScreen => CompactionId(s.compaction)
  }

  /** What the user chose or typed. */
  function Entered(t: Transition): string {
    match t
    case Theming(theme) => if theme.Some? then ThemeId(theme.value) else ""
    case PrimaryModel(value) => TrimSpace(value)
    case PrimaryCustom(value) => TrimSpace(value)
    case ReviewerModelInput(value) => TrimSpace(value)
    case ReviewerCustom(value) => TrimSpace(value)
    case ContextWindow(choice) => choice
    case PrimaryThinking(choice) => choice
    case VerbosityChoice(choice) => choice
    case AskQuestion(choice) => choice
    case FrequencyChoice(choice) => choice
    case ReviewerThinkingChoice(choice) => choice
    case CompactionChoice(choice) => choice
    case _ => ""
  }

  /** A choice of thinking is made among the options on its screen. */
  predicate OnOffer(f: Flow, t: Transition) {
    match t
    case PrimaryThinking(choice) => ThinkingOffered(FactFor(f.facts, f.selections.model.value).thinkingLevels, choice)
    case ReviewerThinkingChoice(choice) =>
      ThinkingOffered(FactFor(f.facts, ReviewerModelValue(f.selections)).thinkingLevels, choice)
    case _ => true
  }

  // --- What was chosen is shown ---

  lemma NormalizedKeeps(s: Selections, facts: Facts)
    ensures var n := NormalizeReviewerThinking(s, facts);
            n == s.(reviewerThinking := n.reviewerThinking, reviewerEdit := n.reviewerEdit)
  {
  }

  lemma PlainChoiceIsShown(f: Flow, t: Transition)
    requires Visible(f, t) && Changed(f, t).Some?
    requires t.Theming? || t.ContextWindow? || t.VerbosityChoice? || t.AskQuestion? || t.CompactionChoice?
    ensures Prefill(Changed(f, t).value, f.facts, ScreenOf(t).value) == Entered(t)
  {
  }

  lemma FrequencyIsShown(f: Flow, choice: string)
    requires Changed(f, FrequencyChoice(choice)).Some?
    ensures Prefill(Changed(f, FrequencyChoice(choice)).value, f.facts, FrequencyScreen) == choice
  {
    forall s ensures NormalizeReviewerThinking(s, f.facts).frequency == s.frequency {
      NormalizedKeeps(s, f.facts);
    }
  }

  lemma ModelIsShown(f: Flow, value: string)
    requires Changed(f, PrimaryModel(value)).Some?
    ensures Prefill(Changed(f, PrimaryModel(value)).value, f.facts, ModelScreen) == TrimSpace(value)
  {
    forall s ensures NormalizeReviewerThinking(s, f.facts).model == s.model {
      NormalizedKeeps(s, f.facts);
    }
  }

  lemma ThinkingIsShown(f: Flow, choice: string)
    requires Visible(f, PrimaryThinking(choice)) && OnOffer(f, PrimaryThinking(choice))
    requires Changed(f, PrimaryThinking(choice)).Some?
    ensures Prefill(Changed(f, PrimaryThinking(choice)).value, f.facts, ThinkingScreen) == choice
  {
    forall s
      ensures var n := NormalizeReviewerThinking(s, f.facts);
              n.model == s.model && n.thinking == s.thinking && n.primaryEdit == s.primaryEdit
    {
      NormalizedKeeps(s, f.facts);
    }
  }

  lemma CustomIsShown(f: Flow, value: string)
    requires Changed(f, PrimaryCustom(value)).Some?
    ensures Prefill(Changed(f, PrimaryCustom(value)).value, f.facts, CustomScreen) == TrimSpace(value)
  {
    var s := f.selections.(thinking := CustomLevel(TrimSpace(value)), primaryEdit := NoEdit);
    NormalizedKeeps(s, f.facts);
  }

  /** What submitting a supervisor's model leaves: an override kept, the main model inherited, or a new override. */
  lemma ReviewerModelLeft(s: Selections, value: string, facts: Facts)
    requires SubmitReviewerModel(s, value, facts).Some?
    ensures var n := SubmitReviewerModel(s, value, facts).value;
            var model := TrimSpace(value);
            && n.model == s.model && n.thinking == s.thinking
            && n.reviewerModel == if s.reviewerModel.OverriddenModel? && model == ReviewerModelValue(s) then s.reviewerModel
                                  else if model == s.model.value then InheritedModel
                                  else OverriddenModel(ModelFor(model, facts))
  {
    var model := TrimSpace(value);
    var reviewer := if model == ReviewerModelValue(s) && s.reviewerModel.OverriddenModel? then s.reviewerModel
                    else if model == s.model.value then InheritedModel
                    else OverriddenModel(ModelFor(model, facts));
    NormalizedKeeps(s.(reviewerModel := reviewer), facts);
  }

  lemma ReviewerValueLeft(s: Selections, n: Selections, model: string, facts: Facts)
    requires n.model == s.model
    requires n.reviewerModel == if s.reviewerModel.OverriddenModel? && model == ReviewerModelValue(s) then s.reviewerModel
                                else if model == s.model.value then InheritedModel
                                else OverriddenModel(ModelFor(model, facts))
    ensures ReviewerModelValue(n) == model
  {
  }

  lemma ReviewerModelIsShown(f: Flow, value: string)
    requires Changed(f, ReviewerModelInput(value)).Some?
    ensures Prefill(Changed(f, ReviewerModelInput(value)).value, f.facts, ReviewerModelScreen) == TrimSpace(value)
  {
    SubmittedReviewerIsShown(f.selections, value, f.facts);
  }

  lemma ReviewerModelPrefill(s: Selections, facts: Facts)
    ensures Prefill(s, facts, ReviewerModelScreen) == ReviewerModelValue(s)
  {
  }

  lemma SubmittedReviewerIsShown(s: Selections, value: string, facts: Facts)
    requires SubmitReviewerModel(s, value, facts).Some?
    ensures Prefill(SubmitReviewerModel(s, value, facts).value, facts, ReviewerModelScreen) == TrimSpace(value)
  {
    var n := SubmitReviewerModel(s, value, facts).value;
    ReviewerModelLeft(s, value, facts);
    ReviewerValueLeft(s, n, TrimSpace(value), facts);
    ReviewerModelPrefill(n, facts);
  }

  /** The supervisor's thinking was typed in by hand, and is the name of the level now chosen. */
  predicate TypedBefore(f: Flow, t: Transition) {
    t.ReviewerThinkingChoice? && t.choice != "custom" && t.choice != "disable" &&
    f.selections.reviewerThinking == OverriddenThinking(CustomLevel(t.choice))
  }

  /** What choosing a level leaves in force. */
  lemma ReviewerLevelInForce(s: Selections, choice: string, facts: Facts)
    requires ChooseReviewerThinking(s, choice, facts).Some? && choice != "custom" && choice != "disable" && choice != ""
    ensures var n := ChooseReviewerThinking(s, choice, facts).value;
            && ReviewerThinkingValue(n) == choice && n.reviewerEdit.NoEdit?
            && n == s.(reviewerThinking := n.reviewerThinking, reviewerEdit := NoEdit)
            && n.reviewerThinking != OverriddenThinking(ThinkingDisabled)
            && (n.reviewerThinking == OverriddenThinking(CustomLevel(choice)) <==>
                s.reviewerThinking == OverriddenThinking(CustomLevel(choice)))
            && (n.reviewerThinking.OverriddenThinking? && n.reviewerThinking.thinking.CustomLevel? ==>
                n.reviewerThinking.thinking.value == choice)
  {
  }

  lemma ShownLevel(levels: seq<string>, custom: bool, value: string)
    requires value in levels && value != "none" && value != "disable" && value != "custom"
    ensures ShownThinking(levels, custom, false, value) == if custom then "custom" else value
  {
  }

  lemma ReviewerLevelIsShown(f: Flow, choice: string)
    requires Changed(f, ReviewerThinkingChoice(choice)).Some? && choice !in {"", "none", "disable", "custom"}
    requires choice in FactFor(f.facts, ReviewerModelValue(f.selections)).thinkingLevels
    ensures var t := ReviewerThinkingChoice(choice);
            Prefill(Changed(f, t).value, f.facts, ReviewerThinkingScreen) == choice <==> !TypedBefore(f, t)
  {
    var n := ChooseReviewerThinking(f.selections, choice, f.facts).value;
    ReviewerLevelInForce(f.selections, choice, f.facts);
    ShownLevel(FactFor(f.facts, ReviewerModelValue(n)).thinkingLevels, ReviewerCustomised(n), choice);
  }

  lemma ReviewerCustomIsShown(f: Flow)
    ensures Prefill(Changed(f, ReviewerThinkingChoice("custom")).value, f.facts, ReviewerThinkingScreen) == "custom"
  {
  }

  lemma ReviewerDisabledIsShown(f: Flow)
    requires Changed(f, ReviewerThinkingChoice("disable")).Some?
    ensures Prefill(Changed(f, ReviewerThinkingChoice("disable")).value, f.facts, ReviewerThinkingScreen) == "disable"
  {
  }

  lemma LevelsAreNotBlank(f: Flow, level: string)
    requires WellFormed(f) && level in FactFor(f.facts, ReviewerModelValue(f.selections)).thinkingLevels
    ensures level != ""
  {
    LookupIsWellFormed(f.facts, ReviewerModelValue(f.selections));
    assert Trimmed("");
  }

  lemma ReviewerThinkingIsShown(f: Flow, choice: string)
    requires var t := ReviewerThinkingChoice(choice); OnOffer(f, t) && Changed(f, t).Some?
    requires WellFormed(f)
    ensures var t := ReviewerThinkingChoice(choice);
            Prefill(Changed(f, t).value, f.facts, ReviewerThinkingScreen) == choice <==> !TypedBefore(f, t)
  {
    if choice == "custom" {
      ReviewerCustomIsShown(f);
    } else if choice == "disable" {
      ReviewerDisabledIsShown(f);
    } else {
      LevelsAreNotBlank(f, choice);
      ReviewerLevelIsShown(f, choice);
    }
  }

  /**
   After a step that its screen allowed and that was committed, the screen shows what was chosen or typed. The one
   exception is the supervisor's thinking: a level whose name had been typed in by hand stays a typed one.
   */
  lemma ChoiceIsShownExactly(f: Flow, t: Transition)
    requires WellFormed(f) && Valid(f.selections, f.imports)
    requires ScreenOf(t).Some? && Visible(f, t) && OnOffer(f, t) && Changed(f, t).Some?
    ensures Prefill(After(f, t).selections, f.facts, ScreenOf(t).value) == Entered(t) <==> !TypedBefore(f, t)
  {
    TransitionKeepsValid(f, t);
    match t
    case PrimaryModel(value) => ModelIsShown(f, value);
    case PrimaryThinking(choice) => ThinkingIsShown(f, choice);
    case PrimaryCustom(value) => CustomIsShown(f, value);
    case FrequencyChoice(choice) => FrequencyIsShown(f, choice);
    case ReviewerModelInput(value) => ReviewerModelIsShown(f, value);
    case ReviewerThinkingChoice(choice) => ReviewerThinkingIsShown(f, choice);
    case _ => PlainChoiceIsShown(f, t);
  }

  /** Whatever is shown, the thinking in force for the supervisor is the one chosen or typed. */
  lemma ReviewerThinkingInForce(f: Flow, t: Transition)
    requires WellFormed(f) && Valid(f.selections, f.imports) && Visible(f, t) && OnOffer(f, t) && Changed(f, t).Some?
    requires t.ReviewerCustom? || (t.ReviewerThinkingChoice? && t.choice != "custom" && t.choice != "disable" && t.choice != "")
    ensures ReviewerThinkingValue(After(f, t).selections) == Entered(t)
  {
    TransitionKeepsValid(f, t);
    if t.ReviewerThinkingChoice? {
      ReviewerLevelInForce(f.selections, t.choice, f.facts);
    }
  }

  /** Theme, follow-up questions and compaction, which go with no model. */
  predicate SameOf(s: Selections, n: Selections, screen: Screen) {
    match screen
    case ThemeScreen => n.theme == s.theme
    case AskScreen => n.askQuestion == s.askQuestion
    case CompactionScreen => n.compaction == s.compaction
    case _ => true
  }

  lemma ModelStepKeeps(s: Selections, value: string, facts: Facts)
    requires SubmitPrimaryModel(s, value, facts).Some?
    ensures var n := SubmitPrimaryModel(s, value, facts).value;
            n.theme == s.theme && n.askQuestion == s.askQuestion && n.compaction == s.compaction && n.frequency == s.frequency
  {
    var model := TrimSpace(value);
    var fact := FactFor(facts, model);
    var fitted := Fitted(s.(model := ModelFor(model, facts)), fact);
    NormalizedKeeps(fitted.(context := DefaultContext(fitted, fact)), facts);
  }

  lemma OtherStepKeeps(f: Flow, t: Transition, screen: Screen)
    requires Changed(f, t).Some? && ScreenOf(t) != Some(screen) && !t.PrimaryModel? && screen in {ThemeScreen, AskScreen, CompactionScreen}
    ensures SameOf(f.selections, Changed(f, t).value, screen)
  {
    forall s
      ensures var n := NormalizeReviewerThinking(s, f.facts);
              n.theme == s.theme && n.askQuestion == s.askQuestion && n.compaction == s.compaction
    {
      NormalizedKeeps(s, f.facts);
    }
  }

  /** The settings that go with no model are changed by their own steps alone. */
  lemma IndependentSettingsStay(f: Flow, t: Transition, screen: Screen)
    requires Changed(f, t).Some? && screen in {ThemeScreen, AskScreen, CompactionScreen} && ScreenOf(t) != Some(screen)
    ensures Prefill(Changed(f, t).value, f.facts, screen) == Prefill(f.selections, f.facts, screen)
  {
    if t.PrimaryModel? {
      ModelStepKeeps(f.selections, t.value, f.facts);
    } else {
      OtherStepKeeps(f, t, screen);
    }
  }

  /** And their steps, like those of verbosity and context, change no other screen. */
  lemma IndependentStepsChangeNothingElse(f: Flow, t: Transition, screen: Screen)
    requires Changed(f, t).Some? && ScreenOf(t) != Some(screen)
    requires t.Theming? || t.AskQuestion? || t.CompactionChoice? || t.VerbosityChoice? || t.ContextWindow?
    ensures Prefill(Changed(f, t).value, f.facts, screen) == Prefill(f.selections, f.facts, screen)
  {
    IndependentStepFields(f, t);
  }

  lemma IndependentStepFields(f: Flow, t: Transition)
    requires Changed(f, t).Some?
    requires t.Theming? || t.AskQuestion? || t.CompactionChoice? || t.VerbosityChoice? || t.ContextWindow?
    ensures var s, n := f.selections, Changed(f, t).value;
            match t
            case Theming(_) => n == s.(theme := n.theme)
            case AskQuestion(_) => n == s.(askQuestion := n.askQuestion)
            case CompactionChoice(_) => n == s.(compaction := n.compaction)
            case VerbosityChoice(_) => n == s.(verbosity := n.verbosity)
            case _ => n == s.(context := n.context)
  {
  }

  lemma TypedLevelIsCustom(s: Selections, level: string)
    requires s.reviewerEdit == Pending && Trimmed(level) && level != "" && level != ThinkingValue(s.thinking)
    ensures CommitReviewerThinking(s, level) ==
            Some(s.(reviewerThinking := OverriddenThinking(CustomLevel(level)), reviewerEdit := NoEdit))
  {
  }

  lemma PickedLevelStaysCustom(s: Selections, level: string, facts: Facts)
    requires s.reviewerThinking == OverriddenThinking(CustomLevel(level)) && level !in {"disable", "custom"}
    requires var fact := FactFor(facts, ReviewerModelValue(s)); fact.supportsThinking && level in fact.thinkingLevels
    ensures ChooseReviewerThinking(s, level, facts) == Some(s.(reviewerEdit := NoEdit))
  {
  }

  /** A custom level typed in and then picked from the list stays a typed one. */
  lemma TypedLevelStaysTyped(s: Selections, facts: Facts, level: string)
    requires var fact := FactFor(facts, ReviewerModelValue(s)); fact.supportsThinking && level in fact.thinkingLevels
    requires level !in {"", "none", "disable", "custom"} && Trimmed(level) && level != ThinkingValue(s.thinking)
    requires s.reviewerEdit == Pending
    ensures CommitReviewerThinking(s, level).Some?
    ensures var typed := CommitReviewerThinking(s, level).value;
            && ChooseReviewerThinking(typed, level, facts).Some?
            && Prefill(ChooseReviewerThinking(typed, level, facts).value, facts, ReviewerThinkingScreen) == "custom"
  {
    TypedLevelIsCustom(s, level);
    PickedLevelStaysCustom(CommitReviewerThinking(s, level).value, level, facts);
  }

  /** The model's name, without outer space and letter case, is that of this fact. */
  predicate IsNamed(facts: Facts, model: string, fact: ModelFact) {
    facts.sameFold(TrimSpace(fact.id), TrimSpace(model))
  }

  /** The first fact with the model's name, or the number of facts. */
  function FirstNamed(facts: Facts, models: seq<ModelFact>, model: string): (i: nat)
    ensures i <= |models| && (i < |models| ==> IsNamed(facts, model, models[i]))
    ensures forall k :: 0 <= k < i ==> !IsNamed(facts, model, models[k])
  {
    if models == [] || IsNamed(facts, model, models[0]) then 0 else 1 + FirstNamed(facts, models[1..], model)
  }

  lemma {:induction false} LookupFindsFirst(facts: Facts, models: seq<ModelFact>, model: string)
    ensures var i := FirstNamed(facts, models, model);
            Lookup(facts, models, TrimSpace(model)) == if i < |models| then models[i] else facts.fallback
    decreases |models|
  {
    if models != [] && !IsNamed(facts, model, models[0]) {
      LookupFindsFirst(facts, models[1..], model);
    }
  }

  /** A model goes by the first known fact of its name, and otherwise by the fallback. */
  lemma FactIsTheFirstOfItsName(facts: Facts, model: string)
    ensures var i := FirstNamed(facts, facts.models, model);
            FactFor(facts, model) == if i < |facts.models| then facts.models[i] else facts.fallback
  {
    LookupFindsFirst(facts, facts.models, model);
  }
}
