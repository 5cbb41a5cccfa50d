/** What the setup's steps accept, and what follows from them later: inheritance, imports and the skills decided on. */
module OnboardingOutcomes {
  import opened Prelude
  import opened Onboarding
  import opened OnboardingRuns
  import opened OnboardingScreens

  // --- What is accepted ---

  /** The choice is one that the step takes: an option of its screen, a known word, or a text that is not blank. */
  predicate Acceptable(f: Flow, t: Transition) {
    var primary := FactFor(f.facts, f.selections.model.value);
    var reviewer := FactFor(f.facts, ReviewerModelValue(f.selections));
    match t
    case Theming(theme) => theme.Some? && theme.value in {Auto, Light, Dark}
    case PrimaryModel(value) => TrimSpace(value) != ""
    case PrimaryCustom(value) => TrimSpace(value) != ""
    case ReviewerModelInput(value) => TrimSpace(value) != ""
    case ReviewerCustom(value) => TrimSpace(value) != ""
    case ContextWindow(choice) => choice == "default" || (choice == "large" && primary.largeWindow.Some?)
    case PrimaryThinking(choice) =>
      choice == "custom" || (choice == "disable" && "none" in primary.thinkingLevels)
      || (choice != "disable" && primary.supportsThinking && choice in primary.thinkingLevels)
    case ReviewerThinkingChoice(choice) =>
      choice == "custom" || (choice == "disable" && "none" in reviewer.thinkingLevels)
      || (choice != "disable" && reviewer.supportsThinking && choice in reviewer.thinkingLevels)
    case VerbosityChoice(choice) => primary.verbositySupported && choice in primary.verbosityLevels
    case AskQuestion(choice) => choice in {"yes", "no"}
    case FrequencyChoice(choice) => choice in {"off", "edits", "all"}
    case CompactionChoice(choice) => choice in {"local", "native", "none"}
    case SkillImport(choice) => !Blank(choice) && exists k :: 0 <= k < |f.imports.skillChoices| && f.imports.skillChoices[k].optionId == choice
    case CommandImport(choice) => !Blank(choice) && exists k :: 0 <= k < |f.imports.commandChoices| && f.imports.commandChoices[k].optionId == choice
    case SkillEnablement(selection) => forall i :: 0 <= i < |Offered(f)| ==> Offered(f)[i].id in selection
    case Discovery(_) => true
  }

  function Offered(f: Flow): seq<Item> {
    Candidates(f.imports, f.selections.skillImport)
  }

  lemma {:induction false} ImportForIsFirst(choices: seq<Choice>, choice: string) returns (k: nat)
    ensures k <= |choices| && forall j :: 0 <= j < k ==> choices[j].optionId != choice
    ensures k < |choices| ==> choices[k].optionId == choice && ImportFor(choices, choice) == Some(Import(choices[k].mode, choices[k].ref))
    ensures k == |choices| ==> ImportFor(choices, choice) == None
    decreases |choices|
  {
    if choices == [] || choices[0].optionId == choice {
      k := 0;
    } else {
      var later := ImportForIsFirst(choices[1..], choice);
      k := later + 1;
      forall j | 0 <= j < k ensures choices[j].optionId != choice {
        assert j > 0 ==> choices[j] == choices[1..][j - 1];
      }
    }
  }

  lemma ImportIsAcceptable(choices: seq<Choice>, choice: string)
    ensures ImportFor(choices, choice).Some? <==> exists k :: 0 <= k < |choices| && choices[k].optionId == choice
  {
    var k := ImportForIsFirst(choices, choice);
  }

  lemma PlainAccepted(f: Flow, t: Transition)
    requires t.Theming? || t.PrimaryModel? || t.PrimaryCustom? || t.ContextWindow? || t.VerbosityChoice? || t.AskQuestion?
             || t.FrequencyChoice? || t.CompactionChoice?
    ensures Changed(f, t).Some? <==> Acceptable(f, t)
  {
  }

  lemma ThinkingAccepted(f: Flow, choice: string)
    ensures Changed(f, PrimaryThinking(choice)).Some? <==> Acceptable(f, PrimaryThinking(choice))
  {
  }

  lemma ReviewerAccepted(f: Flow, t: Transition)
    requires t.ReviewerModelInput? || t.ReviewerThinkingChoice? || t.ReviewerCustom?
    ensures Changed(f, t).Some? <==> Acceptable(f, t)
  {
  }

  lemma ImportAccepted(f: Flow, t: Transition)
    requires t.SkillImport? || t.CommandImport? || t.SkillEnablement? || t.Discovery?
    ensures Changed(f, t).Some? <==> Acceptable(f, t)
  {
    match t
    case SkillImport(choice) => ImportIsAcceptable(f.imports.skillChoices, choice);
    case CommandImport(choice) => ImportIsAcceptable(f.imports.commandChoices, choice);
    case SkillEnablement(selection) => assert Changed(f, t).Some? <==> Enabled(selection, Offered(f)).Some?;
    case Discovery(_) =>
  }

  /** Every step takes exactly what it should, and refuses the rest. */
  lemma AcceptedExactly(f: Flow, t: Transition)
    ensures Changed(f, t).Some? <==> Acceptable(f, t)
  {
    match t
    case PrimaryThinking(choice) => ThinkingAccepted(f, choice);
    case ReviewerModelInput(_) => ReviewerAccepted(f, t);
    case ReviewerThinkingChoice(_) => ReviewerAccepted(f, t);
    case ReviewerCustom(_) => ReviewerAccepted(f, t);
    case SkillImport(_) => ImportAccepted(f, t);
    case CommandImport(_) => ImportAccepted(f, t);
    case SkillEnablement(_) => ImportAccepted(f, t);
    case Discovery(_) => ImportAccepted(f, t);
    case _ => PlainAccepted(f, t);
  }

  // --- Models and thinking, known and inherited ---

  /** A model is taken as known exactly if there is a fact for it, and its window is then the default one. */
  lemma ModelIsTakenAs(f: Flow, value: string)
    requires Changed(f, PrimaryModel(value)).Some?
    ensures var n := Changed(f, PrimaryModel(value)).value;
            var fact := FactFor(f.facts, TrimSpace(value));
            && n.model == (if fact.known then Known(TrimSpace(value)) else Custom(TrimSpace(value)))
            && n.context == (if fact.contextWindow.None? && f.selections.baselineWindow.Some?
                             then ContextCustom(f.selections.baselineWindow.value) else ContextDefault)
            && n.reviewerModel == f.selections.reviewerModel
  {
    var s := f.selections;
    var model := TrimSpace(value);
    var fact := FactFor(f.facts, model);
    var fitted := Fitted(s.(model := ModelFor(model, f.facts)), fact);
    NormalizedKeeps(fitted.(context := DefaultContext(fitted, fact)), f.facts);
  }

  /**
   A supervisor's model that is set to the main one follows it when that changes, unless it had been set apart with this
   very name; any other stays.
   */
  lemma InheritedModelFollows(f: Flow, reviewer: string, primary: string, g: Flow)
    requires Changed(f, ReviewerModelInput(reviewer)).Some? && TrimSpace(primary) != ""
    requires g == f.(selections := Changed(f, ReviewerModelInput(reviewer)).value)
    ensures Changed(g, PrimaryModel(primary)).Some?
    ensures var apart := f.selections.reviewerModel.OverriddenModel? && f.selections.reviewerModel.model.value == TrimSpace(reviewer);
            ReviewerModelValue(Changed(g, PrimaryModel(primary)).value) ==
              if TrimSpace(reviewer) == f.selections.model.value && !apart then TrimSpace(primary) else TrimSpace(reviewer)
  {
    ReviewerModelLeft(f.selections, reviewer, f.facts);
    PlainAccepted(g, PrimaryModel(primary));
    ModelIsTakenAs(g, primary);
  }

  /** The supervisor's thinking goes with the main model's. */
  predicate Inherits(s: Selections) {
    s.reviewerThinking.InheritedThinking?
  }

  /**
   Thinking chosen or typed for the supervisor is inherited exactly if it is the main model's, unless it had been set apart
   with this very value: by choosing, or by typing it in again over a typed one.
   */
  lemma ReviewerThinkingInheritsExactly(f: Flow, t: Transition)
    requires Changed(f, t).Some? && (t.ReviewerCustom? || (t.ReviewerThinkingChoice? && t.choice != "custom" && t.choice != "disable"))
    ensures var s := f.selections;
            var apart := s.reviewerThinking.OverriddenThinking? && ReviewerThinkingValue(s) == Entered(t)
                         && (t.ReviewerThinkingChoice? || s.reviewerEdit == Revisiting);
            var n := Changed(f, t).value;
            && (Inherits(n) <==> Entered(t) == ThinkingValue(s.thinking) && !apart)
            && (apart ==> n.reviewerThinking == s.reviewerThinking) && n.reviewerEdit.NoEdit?
  {
  }

  /** Normalising keeps the thinking in force where the model thinks, and an explicit disabling everywhere. */
  lemma NormalizingKeepsTheValue(s: Selections, facts: Facts)
    ensures var n := NormalizeReviewerThinking(s, facts);
            var thinks := FactFor(facts, ReviewerModelValue(s)).supportsThinking;
            && (thinks && !s.reviewerThinking.CapabilityDisabled? ==> ReviewerThinkingValue(n) == ReviewerThinkingValue(s))
            && (thinks && s.reviewerThinking.CapabilityDisabled? ==> Inherits(n))
            && (!thinks ==> ReviewerThinkingValue(n) == "" && n.reviewerEdit.NoEdit?)
            && (s.reviewerThinking == OverriddenThinking(ThinkingDisabled) ==> n.reviewerThinking == s.reviewerThinking)
            && (!thinks && s.reviewerThinking != OverriddenThinking(ThinkingDisabled) ==> n.reviewerThinking == CapabilityDisabled)
  {
  }

  // --- Typing a level in ---

  /** Going to type a level in shows the one typed before, if the thinking is one, and otherwise an empty line. */
  lemma TypingStartsFromTheTyped(f: Flow)
    ensures var n := Changed(f, PrimaryThinking("custom")).value;
            && Editing(n.primaryEdit) && n.thinking == f.selections.thinking
            && Prefill(n, f.facts, CustomScreen) == (if f.selections.thinking.CustomLevel? then f.selections.thinking.value else "")
    ensures var n := Changed(f, ReviewerThinkingChoice("custom")).value;
            var typed := f.selections.reviewerThinking.OverriddenThinking? && f.selections.reviewerThinking.thinking.CustomLevel?;
            && Editing(n.reviewerEdit) && n.reviewerThinking == f.selections.reviewerThinking
            && (n.reviewerEdit == Revisiting <==> typed)
  {
    var s := f.selections;
    NormalizedKeeps(s.(primaryEdit := if s.thinking.CustomLevel? then Revisiting else Pending), f.facts);
  }

  /** Picking a level, disabling, and committing a typed level all end the typing; so does turning the supervisor off. */
  lemma ChoicesEndTyping(f: Flow, t: Transition)
    requires Changed(f, t).Some?
    ensures (t.PrimaryThinking? && t.choice != "custom") || t.PrimaryCustom? ==> Changed(f, t).value.primaryEdit.NoEdit?
    ensures t.FrequencyChoice? && t.choice == "off" ==> Changed(f, t).value.reviewerEdit.NoEdit?
    ensures t.ReviewerCustom? || (t.ReviewerThinkingChoice? && t.choice != "custom") ==> Changed(f, t).value.reviewerEdit.NoEdit?
  {
    forall s
      ensures var n := NormalizeReviewerThinking(s, f.facts);
              n.primaryEdit == s.primaryEdit && (s.reviewerEdit.NoEdit? ==> n.reviewerEdit.NoEdit?)
    {
      NormalizedKeeps(s, f.facts);
    }
  }

  // --- Imports and skills ---

  /** The choice that stands for an import, if there is one: the first with its source, or the first that imports nothing. */
  predicate StandsFor(c: Choice, i: Import) {
    c.mode == i.mode && (c.mode == ImportNone || (c.mode == SymlinkSource && c.ref == i.ref))
  }

  lemma {:induction false} ChoiceForImportIsFirst(choices: seq<Choice>, i: Import) returns (k: nat)
    ensures k <= |choices| && forall j :: 0 <= j < k ==> !StandsFor(choices[j], i)
    ensures k < |choices| ==> StandsFor(choices[k], i) && ChoiceForImport(choices, i) == Some(choices[k].optionId)
    ensures k == |choices| ==> ChoiceForImport(choices, i) == None
    decreases |choices|
  {
    if choices == [] || StandsFor(choices[0], i) {
      k := 0;
    } else {
      var later := ChoiceForImportIsFirst(choices[1..], i);
      k := later + 1;
      forall j | 0 <= j < k ensures !StandsFor(choices[j], i) {
        assert j > 0 ==> choices[j] == choices[1..][j - 1];
      }
    }
  }

  lemma {:induction false} NoneChoiceIsFirst(choices: seq<Choice>)
    ensures NoneChoice(choices) == ChoiceForImport(choices, Import(ImportNone, None))
    decreases |choices|
  {
    if choices != [] {
      NoneChoiceIsFirst(choices[1..]);
    }
  }

  /** The skills to decide on are those found for the import chosen, or for importing nothing; failing that, the built-in ones. */
  lemma CandidatesGoWithTheImport(imports: Imports, i: Import)
    ensures var source := if i.mode == SymlinkSource && !imports.skipSkills then i else Import(ImportNone, None);
            var option := ChoiceForImport(imports.skillChoices, source);
            Candidates(imports, i) ==
              if option.Some? && option.value in imports.itemsByChoice then imports.itemsByChoice[option.value]
              else imports.generatedItems
  {
    NoneChoiceIsFirst(imports.skillChoices);
  }

  lemma {:induction false} InitialIsDefault(items: seq<Item>, i: nat)
    requires i < |items| && forall j :: i < j < |items| ==> items[j].id != items[i].id
    ensures InitialEnablement(items)[items[i].id] == items[i].defaultEnabled
    decreases |items|
  {
    var front := items[..|items| - 1];
    if i < |items| - 1 {
      assert front[i] == items[i];
      InitialIsDefault(front, i);
    }
  }

  /**
   Choosing an import takes the first choice of that name. Choosing the one there is already keeps what was decided about
   its skills; another one starts from the defaults.
   */
  lemma SkillImportIsTaken(f: Flow, choice: string)
    requires Changed(f, SkillImport(choice)).Some?
    ensures var n := Changed(f, SkillImport(choice)).value;
            && ImportFor(f.imports.skillChoices, choice) == Some(n.skillImport)
            && (if SameImport(f.selections.skillImport, n.skillImport) then n.skillEnablement == f.selections.skillEnablement
                else n.skillEnablement == InitialEnablement(Candidates(f.imports, n.skillImport)))
            && n == f.selections.(skillImport := n.skillImport, skillEnablement := n.skillEnablement)
  {
  }

  lemma CommandImportIsTaken(f: Flow, choice: string)
    requires Changed(f, CommandImport(choice)).Some?
    ensures var n := Changed(f, CommandImport(choice)).value;
            ImportFor(f.imports.commandChoices, choice) == Some(n.commandImport)
            && n == f.selections.(commandImport := n.commandImport)
  {
  }

  /** What is decided about the skills is kept for every skill on offer. */
  lemma DecisionsAreKept(f: Flow, selection: map<string, bool>)
    requires Changed(f, SkillEnablement(selection)).Some?
    ensures var n := Changed(f, SkillEnablement(selection)).value;
            && n == f.selections.(skillEnablement := n.skillEnablement)
            && forall i :: 0 <= i < |Offered(f)| ==>
                 var id := Offered(f)[i].id; id in n.skillEnablement && id in selection && n.skillEnablement[id] == selection[id]
  {
  }

  /** Two imports that stand for the same choice are the same: none, or from one source. */
  lemma SameImportsStandAlike(choices: seq<Choice>, a: Import, b: Import)
    requires SameImport(a, b)
    ensures forall k :: 0 <= k < |choices| ==> (StandsFor(choices[k], a) <==> StandsFor(choices[k], b))
    ensures ChoiceForImport(choices, a) == ChoiceForImport(choices, b)
  {
    var j := ChoiceForImportIsFirst(choices, a);
    var k := ChoiceForImportIsFirst(choices, b);
  }

  /** Newly found imports keep what was chosen where it is not skipped, and start the skills from their defaults. */
  lemma DiscoveryKeepsChoices(f: Flow, imports: Imports)
    ensures var n := Changed(f, Discovery(imports)).value;
            && n.skillImport == (if imports.skipSkills then Import(ImportNone, None) else f.selections.skillImport)
            && n.commandImport == (if imports.skipCommands then Import(ImportNone, None) else f.selections.commandImport)
            && n.skillEnablement == InitialEnablement(Candidates(imports, n.skillImport))
            && n == f.selections.(skillImport := n.skillImport, commandImport := n.commandImport, skillEnablement := n.skillEnablement)
  {
  }

  // --- What every committed state is good for ---

  /** Nothing unset, blank or out of range. */
  predicate Complete(s: Selections) {
    && s.theme in {Auto, Light, Dark} && s.frequency in {Off, Edits, All} && s.compaction in {Local, Native, ManualOnly}
    && s.skillImport.mode in {ImportNone, SymlinkSource} && s.commandImport.mode in {ImportNone, SymlinkSource}
    && TrimSpace(s.model.value) != "" && TrimSpace(ReviewerModelValue(s)) != ""
    && (s.context.ContextCustom? ==> 0 < s.context.tokens <= 0xFFFF_FFFF)
    && (s.thinking.Level? || s.thinking.CustomLevel? ==> TrimSpace(ThinkingValue(s.thinking)) != "")
    && (s.verbosity.VerbosityLevel? ==> TrimSpace(s.verbosity.value) != "")
  }

  lemma ValidIsComplete(s: Selections)
    requires SelectionsValid(s)
    ensures Complete(s)
  {
  }

  /** In every run every state can be written out: it is complete, and every skill on offer is decided. */
  lemma EveryStateIsComplete(f: Flow, ts: seq<Transition>)
    requires WellFormed(f) && Valid(f.selections, f.imports)
    requires forall i :: 0 <= i < |ts| && ts[i].Discovery? ==> ImportsWellFormed(ts[i].imports)
    ensures var g := RunAll(f, ts);
            Complete(g.selections) && forall i :: 0 <= i < |Offered(g)| ==> Offered(g)[i].id in g.selections.skillEnablement
  {
    SetupNeverCorruptsItself(f, ts);
    ValidIsComplete(RunAll(f, ts).selections);
  }
}
