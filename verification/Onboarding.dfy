/**
 The first-time setup: a record of the user's choices, changed only by transitions that are checked against an invariant
 before they are committed.
 */
module Onboarding {
  import opened Prelude

  // --- Facts about models ---

  datatype ModelFact = ModelFact(
    id: string,
    known: bool,
    supportsThinking: bool,
    thinkingLevels: seq<string>,
    verbositySupported: bool,
    verbosityLevels: seq<string>,
    contextWindow: Option<nat>,
    largeWindow: Option<nat>)

  /** The known models, the fact used for all others, and the case folding by which ids are compared. */
  datatype Facts = Facts(models: seq<ModelFact>, fallback: ModelFact, sameFold: (string, string) -> bool)

  function Lookup(facts: Facts, models: seq<ModelFact>, trimmed: string): (fact: ModelFact)
    ensures fact == facts.fallback || fact in models
  {
    if models == [] then facts.fallback
    else if facts.sameFold(TrimSpace(models[0].id), trimmed) then models[0]
    else Lookup(facts, models[1..], trimmed)
  }

  function FactFor(facts: Facts, model: string): ModelFact {
    Lookup(facts, facts.models, TrimSpace(model))
  }

  // --- The selections; an unset kind is what an unknown default would leave behind ---

  datatype Theme = ThemeUnset | Auto | Light | Dark

  datatype Model = Known(value: string) | Custom(value: string)

  datatype Context = ContextDefault | ContextLarge | ContextCustom(tokens: int)

  datatype Thinking = ThinkingUnset | ThinkingDefault | ThinkingDisabled | Level(value: string) | CustomLevel(value: string)

  datatype Verbosity = Omitted | VerbosityLevel(value: string)

  datatype Frequency = FrequencyUnset | Off | Edits | All

  datatype ReviewerModel = InheritedModel | OverriddenModel(model: Model)

  datatype ReviewerThinking = InheritedThinking | OverriddenThinking(thinking: Thinking) | CapabilityDisabled

  datatype Compaction = CompactionUnset | Local | Native | ManualOnly

  datatype ImportMode = ImportUnset | ImportNone | SymlinkSource

  datatype Import = Import(mode: ImportMode, ref: Option<string>)

  datatype Edit = NoEdit | Pending | Revisiting

  datatype Selections = Selections(
    theme: Theme,
    model: Model,
    context: Context,
    thinking: Thinking,
    verbosity: Verbosity,
    askQuestion: bool,
    frequency: Frequency,
    reviewerModel: ReviewerModel,
    reviewerThinking: ReviewerThinking,
    compaction: Compaction,
    skillImport: Import,
    commandImport: Import,
    skillEnablement: map<string, bool>,
    primaryEdit: Edit,
    reviewerEdit: Edit,
    baselineWindow: Option<int>)

  const DEFAULT_THINKING := "medium"

  function ThinkingValue(t: Thinking): string {
    match t
    case ThinkingDefault => DEFAULT_THINKING
    case Level(value) => value
    case CustomLevel(value) => value
    case _ => ""
  }

  function ReviewerModelValue(s: Selections): string {
    if s.reviewerModel.OverriddenModel? then s.reviewerModel.model.value else s.model.value
  }

  function ReviewerThinkingValue(s: Selections): string {
    match s.reviewerThinking
    case CapabilityDisabled => ""
    case OverriddenThinking(t) => ThinkingValue(t)
    case InheritedThinking => ThinkingValue(s.thinking)
  }

  // --- Imports ---

  datatype Item = Item(id: string, defaultEnabled: bool)

  datatype Choice = Choice(optionId: string, mode: ImportMode, ref: Option<string>)

  datatype Imports = Imports(
    skillChoices: seq<Choice>,
    commandChoices: seq<Choice>,
    skipSkills: bool,
    skipCommands: bool,
    itemsByChoice: map<string, seq<Item>>,
    generatedItems: seq<Item>)

  predicate SameImport(a: Import, b: Import) {
    a.mode == b.mode && (a.mode == ImportNone || (a.mode == SymlinkSource && a.ref == b.ref))
  }

  function NoneChoice(choices: seq<Choice>): Option<string> {
    if choices == [] then None
    else if choices[0].mode == ImportNone then Some(choices[0].optionId)
    else NoneChoice(choices[1..])
  }

  function ChoiceForImport(choices: seq<Choice>, i: Import): Option<string> {
    if choices == [] then None
    else if SameImport(Import(choices[0].mode, choices[0].ref), i) then Some(choices[0].optionId)
    else ChoiceForImport(choices[1..], i)
  }

  /** The skills whose use the user decides on, given what is imported. */
  function Candidates(imports: Imports, skillImport: Import): seq<Item> {
    var chosen := if skillImport.mode == SymlinkSource && !imports.skipSkills
                  then ChoiceForImport(imports.skillChoices, skillImport) else NoneChoice(imports.skillChoices);
    if chosen.Some? && chosen.value in imports.itemsByChoice then imports.itemsByChoice[chosen.value]
    else imports.generatedItems
  }

  function InitialEnablement(items: seq<Item>): (m: map<string, bool>)
    ensures forall i :: 0 <= i < |items| ==> items[i].id in m
  {
    if items == [] then map[]
    else InitialEnablement(items[..|items| - 1])[items[|items| - 1].id := items[|items| - 1].defaultEnabled]
  }

  function Recomputed(s: Selections, imports: Imports): Selections {
    s.(skillEnablement := InitialEnablement(Candidates(imports, s.skillImport)))
  }

  // --- The invariant ---

  predicate Blank(s: string) {
    TrimSpace(s) == ""
  }

  predicate ThinkingValid(t: Thinking) {
    match t
    case ThinkingUnset => false
    case Level(value) => !Blank(value)
    case CustomLevel(value) => !Blank(value)
    case _ => true
  }

  const MAX_UINT32: int := 0xFFFF_FFFF

  /** No check of the selections alone fails. */
  predicate SelectionsValid(s: Selections) {
    && !s.theme.ThemeUnset? && !s.frequency.FrequencyUnset? && !s.compaction.CompactionUnset?
    && !s.skillImport.mode.ImportUnset? && !s.commandImport.mode.ImportUnset?
    && !Blank(s.model.value)
    && (s.context.ContextCustom? ==> 0 < s.context.tokens <= MAX_UINT32)
    && ThinkingValid(s.thinking)
    && (s.verbosity.VerbosityLevel? ==> !Blank(s.verbosity.value))
    && (s.reviewerModel.OverriddenModel? ==> !Blank(s.reviewerModel.model.value))
    && (s.reviewerThinking.OverriddenThinking? ==> ThinkingValid(s.reviewerThinking.thinking))
    && (s.baselineWindow.Some? ==> s.baselineWindow.value > 0)
  }

  predicate SkillsCovered(s: Selections, imports: Imports) {
    var items := Candidates(imports, s.skillImport);
    forall i :: 0 <= i < |items| ==> items[i].id in s.skillEnablement
  }

  predicate Valid(s: Selections, imports: Imports) {
    SelectionsValid(s) && SkillsCovered(s, imports)
  }

  // --- Transitions; none where the choice is refused ---

  function ModelFor(model: string, facts: Facts): Model {
    if FactFor(facts, model).known then Known(model) else Custom(model)
  }

  function NormalizeReviewerThinking(s: Selections, facts: Facts): Selections {
    var fact := FactFor(facts, ReviewerModelValue(s));
    if !fact.supportsThinking then
      s.(reviewerEdit := NoEdit,
         reviewerThinking := if s.reviewerThinking == OverriddenThinking(ThinkingDisabled) then s.reviewerThinking
                             else CapabilityDisabled)
    else
      match s.reviewerThinking
      case CapabilityDisabled => s.(reviewerThinking := InheritedThinking)
      case OverriddenThinking(Level(value)) =>
        if value in fact.thinkingLevels then s else s.(reviewerThinking := OverriddenThinking(CustomLevel(value)))
      case _ => s
  }

  function ChooseTheme(s: Selections, theme: Option<Theme>): Option<Selections> {
    if theme.None? || theme.value.ThemeUnset? then None else Some(s.(theme := theme.value))
  }

  function DefaultContext(s: Selections, fact: ModelFact): Context {
    if fact.contextWindow.None? && s.baselineWindow.Some? then ContextCustom(s.baselineWindow.value) else ContextDefault
  }

  function ChooseContextWindow(s: Selections, choice: string, facts: Facts): Option<Selections> {
    var fact := FactFor(facts, s.model.value);
    if choice == "large" then (if fact.largeWindow.None? then None else Some(s.(context := ContextLarge)))
    else if choice == "default" then Some(s.(context := DefaultContext(s, fact)))
    else None
  }

  /** The verbosity and thinking that go with a model. */
  function Fitted(s: Selections, fact: ModelFact): Selections {
    var verbosity := if !fact.verbositySupported then Omitted
                     else if s.verbosity.Omitted? then VerbosityLevel("low") else s.verbosity;
    if !fact.supportsThinking then s.(verbosity := verbosity, thinking := ThinkingDisabled, primaryEdit := NoEdit)
    else if s.thinking.Level? && s.thinking.value !in fact.thinkingLevels then
      s.(verbosity := verbosity, thinking := CustomLevel(s.thinking.value))
    else s.(verbosity := verbosity)
  }

  function SubmitPrimaryModel(s: Selections, value: string, facts: Facts): Option<Selections> {
    var model := TrimSpace(value);
    if model == "" then None
    else
      var fact := FactFor(facts, model);
      var fitted := Fitted(s.(model := ModelFor(model, facts)), fact);
      Some(NormalizeReviewerThinking(fitted.(context := DefaultContext(fitted, fact)), facts))
  }

  function ChoosePrimaryThinking(s: Selections, choice: string, facts: Facts): Option<Selections> {
    var fact := FactFor(facts, s.model.value);
    if choice == "disable" then
      if "none" !in fact.thinkingLevels then None
      else Some(NormalizeReviewerThinking(s.(thinking := ThinkingDisabled, primaryEdit := NoEdit), facts))
    else if choice == "custom" then
      Some(NormalizeReviewerThinking(s.(primaryEdit := if s.thinking.CustomLevel? then Revisiting else Pending), facts))
    else if !fact.supportsThinking || choice !in fact.thinkingLevels then None
    else Some(NormalizeReviewerThinking(s.(thinking := Level(choice), primaryEdit := NoEdit), facts))
  }

  function CommitPrimaryThinking(s: Selections, value: string, facts: Facts): Option<Selections> {
    if Blank(value) then None
    else
      Some(NormalizeReviewerThinking(s.(thinking := CustomLevel(TrimSpace(value)), primaryEdit := NoEdit), facts))
  }

  function ChooseVerbosity(s: Selections, choice: string, facts: Facts): Option<Selections> {
    var fact := FactFor(facts, s.model.value);
    if !fact.verbositySupported || choice !in fact.verbosityLevels then None
    else Some(s.(verbosity := VerbosityLevel(choice)))
  }

  function ChooseAskQuestion(s: Selections, choice: string): Option<Selections> {
    if choice == "yes" then Some(s.(askQuestion := true))
    else if choice == "no" then Some(s.(askQuestion := false))
    else None
  }

  function ChooseFrequency(s: Selections, choice: string, facts: Facts): Option<Selections> {
    if choice == "off" then Some(NormalizeReviewerThinking(s.(frequency := Off, reviewerEdit := NoEdit), facts))
    else if choice == "edits" then Some(NormalizeReviewerThinking(s.(frequency := Edits), facts))
    else if choice == "all" then Some(NormalizeReviewerThinking(s.(frequency := All), facts))
    else None
  }

  function SubmitReviewerModel(s: Selections, value: string, facts: Facts): Option<Selections> {
    var model := TrimSpace(value);
    if model == "" then None
    else
      var reviewer :=
        if model == ReviewerModelValue(s) && s.reviewerModel.OverriddenModel? then s.reviewerModel
        else if model == s.model.value then InheritedModel
        else OverriddenModel(ModelFor(model, facts));
      Some(NormalizeReviewerThinking(s.(reviewerModel := reviewer), facts))
  }

  function ChooseReviewerThinking(s: Selections, choice: string, facts: Facts): Option<Selections> {
    var fact := FactFor(facts, ReviewerModelValue(s));
    if choice == "disable" then
      if "none" !in fact.thinkingLevels then None
      else Some(s.(reviewerThinking := OverriddenThinking(ThinkingDisabled), reviewerEdit := NoEdit))
    else if choice == "custom" then
      var revisits := s.reviewerThinking.OverriddenThinking? && s.reviewerThinking.thinking.CustomLevel?;
      Some(s.(reviewerEdit := if revisits then Revisiting else Pending))
    else if !fact.supportsThinking || choice !in fact.thinkingLevels then None
    else
      var thinking :=
        if choice == ReviewerThinkingValue(s) && s.reviewerThinking.OverriddenThinking? then s.reviewerThinking
        else if choice == ThinkingValue(s.thinking) then InheritedThinking
        else OverriddenThinking(Level(choice));
      Some(s.(reviewerThinking := thinking, reviewerEdit := NoEdit))
  }

  function CommitReviewerThinking(s: Selections, value: string): Option<Selections> {
    var trimmed := TrimSpace(value);
    if trimmed == "" then None
    else
      var thinking :=
        if && trimmed == ReviewerThinkingValue(s) && s.reviewerEdit == Revisiting
           && s.reviewerThinking.OverriddenThinking? then s.reviewerThinking
        else if trimmed == ThinkingValue(s.thinking) then InheritedThinking
        else OverriddenThinking(CustomLevel(trimmed));
      Some(s.(reviewerThinking := thinking, reviewerEdit := NoEdit))
  }

  function ChooseCompaction(s: Selections, choice: string): Option<Selections> {
    if choice == "local" then Some(s.(compaction := Local))
    else if choice == "native" then Some(s.(compaction := Native))
    else if choice == "none" then Some(s.(compaction := ManualOnly))
    else None
  }

  function ImportFor(choices: seq<Choice>, choice: string): (i: Option<Import>)
    ensures i.Some? ==> exists k :: 0 <= k < |choices| && i.value == Import(choices[k].mode, choices[k].ref)
  {
    if choices == [] then None
    else if choices[0].optionId == choice then
      assert Import(choices[0].mode, choices[0].ref) == Import(choices[0].mode, choices[0].ref);
      Some(Import(choices[0].mode, choices[0].ref))
    else
      var later := ImportFor(choices[1..], choice);
      assert forall k :: 0 <= k < |choices[1..]| ==> choices[1..][k] == choices[k + 1];
      later
  }

  function ChooseSkillImport(s: Selections, choice: string, imports: Imports): Option<Selections> {
    var i := ImportFor(imports.skillChoices, choice);
    if Blank(choice) || i.None? then None
    else if SameImport(s.skillImport, i.value) then Some(s.(skillImport := i.value))
    else Some(Recomputed(s.(skillImport := i.value), imports))
  }

  function ChooseCommandImport(s: Selections, choice: string, imports: Imports): Option<Selections> {
    var i := ImportFor(imports.commandChoices, choice);
    if Blank(choice) || i.None? then None else Some(s.(commandImport := i.value))
  }

  function Enabled(selection: map<string, bool>, items: seq<Item>): (m: Option<map<string, bool>>)
    ensures m.Some? <==> forall i :: 0 <= i < |items| ==> items[i].id in selection
    ensures m.Some? ==> forall i :: 0 <= i < |items| ==> items[i].id in m.value && m.value[items[i].id] == selection[items[i].id]
  {
    if items == [] then Some(map[])
    else
      var last := items[|items| - 1];
      var rest := Enabled(selection, items[..|items| - 1]);
      if rest.None? || last.id !in selection then None else Some(rest.value[last.id := selection[last.id]])
  }

  function ChooseSkillEnablement(s: Selections, selection: map<string, bool>, imports: Imports): Option<Selections> {
    var m := Enabled(selection, Candidates(imports, s.skillImport));
    if m.None? then None else Some(s.(skillEnablement := m.value))
  }

  function RefreshSkills(s: Selections, imports: Imports): Selections {
    var skills := if imports.skipSkills then Import(ImportNone, None) else s.skillImport;
    var commands := if imports.skipCommands then Import(ImportNone, None) else s.commandImport;
    Recomputed(s.(skillImport := skills, commandImport := commands), imports)
  }
}
