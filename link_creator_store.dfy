/**
 * The zustand store that drives the Drive-file-to-song linking wizard
 * (`useLinkCreatorStore` in store.tsx): the chosen songs folder, the index of
 * the current step, the per-step completion checkers and the derived flags.
 */
module LinkCreatorStore {
  import opened Seqs

  /** The ids of the wizard's steps; `Steps` is their order. */
  datatype StepId = Intro | SelectFolder | MatchNames

  const Steps: seq<StepId> := [Intro, SelectFolder, MatchNames]

  /** A TypeScript field that may be `undefined`, `null` or hold a value. */
  datatype Nullish<T> = Undefined | Null | Defined(value: T)

  /**
   * A subfolder of the chosen folder and the song it is matched with. The type
   * and the store's `mappings` field are used by the steps but not declared in
   * the shown store; they are kept here as an opaque field with a setter.
   */
  datatype FolderToSongMapping = FolderToSongMapping(folderId: string, folderName: string, songId: Nullish<string>)

  /** The data part of the store (`BaseStore` without its actions). */
  datatype BaseState = BaseState(songsFolderId: Option<string>, currentStepIdx: int)

  /** The derived part of the store (`ComputedStore`). */
  datatype ComputedState = ComputedState(
    canGoToNextStep: bool,
    canGoToPreviousStep: bool,
    isFirstStep: bool,
    isLastStep: bool,
    currentStep: StepId)

  /** `0 <= currentStepIdx < steps.length`, which every action keeps. */
  predicate ValidIdx(s: BaseState) {
    0 <= s.currentStepIdx < |Steps|
  }

  /** `!!state.songsFolderId`: both `null` and the empty string are falsy. */
  predicate FolderChosen(s: BaseState) {
    s.songsFolderId.Some? && s.songsFolderId.value != ""
  }

  /** `completionCheckers[step](state)` */
  function IsStepComplete(step: StepId, s: BaseState): (r: bool)
    ensures r <==> step != SelectFolder || FolderChosen(s)
  {
    match step
    case Intro => true
    case SelectFolder => FolderChosen(s)
    case MatchNames => true
  }

  /** `computedState(state)`; it dereferences `steps[currentStepIdx]`, so the index must be valid. */
  function Computed(s: BaseState): (c: ComputedState)
    requires ValidIdx(s)
    ensures c.currentStep == Steps[s.currentStepIdx]
    ensures c.isFirstStep <==> s.currentStepIdx == 0
    ensures c.isLastStep <==> s.currentStepIdx == |Steps| - 1
    ensures c.canGoToNextStep <==> IsStepComplete(Steps[s.currentStepIdx], s) && s.currentStepIdx != |Steps| - 1
    ensures c.canGoToPreviousStep <==> s.currentStepIdx != 0
  {
    var step := Steps[s.currentStepIdx];
    var isFirst := s.currentStepIdx == 0;
    var isLast := s.currentStepIdx == |Steps| - 1;
    ComputedState(IsStepComplete(step, s) && !isLast, !isFirst, isFirst, isLast, step)
  }

  /** The store right after `create(...)`. */
  const Initial: BaseState := BaseState(None, 0)

  /** The state change of `goToNextStep`: it does not consult the completion checker. */
  function NextStep(s: BaseState): BaseState {
    if s.currentStepIdx < |Steps| - 1 then s.(currentStepIdx := s.currentStepIdx + 1) else s
  }

  /** The state change of `goToPreviousStep`. */
  function PreviousStep(s: BaseState): BaseState {
    if s.currentStepIdx > 0 then s.(currentStepIdx := s.currentStepIdx - 1) else s
  }

  /** The state change of `handleCancel`. */
  function Cancel(s: BaseState): BaseState {
    s.(currentStepIdx := 0)
  }

  /** The state change of `handleFolderSelected`. */
  function FolderSelected(s: BaseState, folderId: string): BaseState {
    s.(songsFolderId := Some(folderId))
  }

  /** A fresh store is at the first step with no folder selected. */
  lemma InitialState()
    ensures ValidIdx(Initial) && Initial.currentStepIdx == 0 && Initial.songsFolderId.None?
    ensures Computed(Initial).isFirstStep && !Computed(Initial).canGoToPreviousStep
    ensures Computed(Initial).currentStep == Intro && Computed(Initial).canGoToNextStep
  {
  }

  /** Every action keeps the step index inside `steps`. */
  lemma ActionsPreserveValidIdx(s: BaseState, folderId: string)
    requires ValidIdx(s)
    ensures ValidIdx(NextStep(s)) && ValidIdx(PreviousStep(s))
    ensures ValidIdx(Cancel(s)) && ValidIdx(FolderSelected(s, folderId))
  {
  }

  /**
   * `goToNextStep` advances by one below the last step and is a no-op on it; it
   * ignores the completion checker, so it advances from an incomplete step too.
   */
  lemma NextStepMoves(s: BaseState)
    requires ValidIdx(s)
    ensures NextStep(s).songsFolderId == s.songsFolderId
    ensures !Computed(s).isLastStep ==> NextStep(s).currentStepIdx == s.currentStepIdx + 1
    ensures Computed(s).isLastStep ==> NextStep(s) == s
    ensures Steps[s.currentStepIdx] == SelectFolder && !FolderChosen(s) ==>
      !Computed(s).canGoToNextStep && NextStep(s).currentStepIdx == s.currentStepIdx + 1
  {
  }

  /** `goToPreviousStep` goes back by one above the first step and is a no-op on it. */
  lemma PreviousStepMoves(s: BaseState)
    requires ValidIdx(s)
    ensures PreviousStep(s).songsFolderId == s.songsFolderId
    ensures Computed(s).canGoToPreviousStep ==> PreviousStep(s).currentStepIdx == s.currentStepIdx - 1
    ensures Computed(s).isFirstStep ==> PreviousStep(s) == s
  {
  }

  /** Going forward and back (or back and forward) where both are possible restores the state. */
  lemma NextAndPreviousAreInverse(s: BaseState)
    requires ValidIdx(s)
    ensures !Computed(s).isLastStep ==> PreviousStep(NextStep(s)) == s
    ensures !Computed(s).isFirstStep ==> NextStep(PreviousStep(s)) == s
  {
  }

  /** `handleCancel` returns to the first step and keeps the chosen folder. */
  lemma CancelResets(s: BaseState)
    ensures Cancel(s).currentStepIdx == 0 && Cancel(s).songsFolderId == s.songsFolderId
    ensures Cancel(Cancel(s)) == Cancel(s)
    ensures ValidIdx(Cancel(s)) && Computed(Cancel(s)).isFirstStep
  {
  }

  /** `handleFolderSelected` sets the folder and nothing else; a non-empty id completes the folder step. */
  lemma FolderSelectedSetsOnlyFolder(s: BaseState, folderId: string)
    ensures FolderSelected(s, folderId).currentStepIdx == s.currentStepIdx
    ensures FolderSelected(s, folderId).songsFolderId == Some(folderId)
    ensures IsStepComplete(SelectFolder, FolderSelected(s, folderId)) <==> folderId != ""
  {
  }

  /**
   * The gating scenario: on the folder step with no folder the derived flag
   * forbids advancing; after a folder is chosen it allows it and advancing
   * reaches the name-matching step.
   */
  lemma {:induction false} FolderStepGating(folderId: string)
    requires folderId != ""
    ensures var s := NextStep(Initial);
      && Computed(s).currentStep == SelectFolder
      && !Computed(s).canGoToNextStep
      && Computed(FolderSelected(s, folderId)).canGoToNextStep
      && Computed(NextStep(FolderSelected(s, folderId))).currentStep == MatchNames
  {
    var s := NextStep(Initial);
    assert s == BaseState(None, 1);
    var t := FolderSelected(s, folderId);
    assert t == BaseState(Some(folderId), 1);
    assert NextStep(t) == BaseState(Some(folderId), 2);
  }

  /** The store object: its fields are updated in place by the actions through `set()`. */
  class Store {
    var songsFolderId: Option<string>
    var currentStepIdx: int
    var mappings: Option<seq<FolderToSongMapping>>

    function State(): BaseState
      reads this
    {
      BaseState(songsFolderId, currentStepIdx)
    }

    ghost predicate Valid()
      reads this
    {
      ValidIdx(State())
    }

    constructor ()
      ensures Valid() && State() == Initial && mappings.None?
    {
      songsFolderId := None;
      currentStepIdx := 0;
      mappings := None;
    }

    /** The derived flags, recomputed from the current state on every read. */
    function ComputedStore(): ComputedState
      reads this
      requires Valid()
    {
      Computed(State())
    }

    method GoToNextStep()
      requires Valid()
      modifies this
      ensures Valid() && State() == NextStep(old(State())) && mappings == old(mappings)
    {
      if currentStepIdx < |Steps| - 1 {
        currentStepIdx := currentStepIdx + 1;
      }
    }

    method GoToPreviousStep()
      requires Valid()
      modifies this
      ensures Valid() && State() == PreviousStep(old(State())) && mappings == old(mappings)
    {
      if currentStepIdx > 0 {
        currentStepIdx := currentStepIdx - 1;
      }
    }

    method HandleCancel()
      requires Valid()
      modifies this
      ensures Valid() && State() == Cancel(old(State())) && mappings == old(mappings)
    {
      currentStepIdx := 0;
    }

    method HandleFolderSelected(folderId: string)
      requires Valid()
      modifies this
      ensures Valid() && State() == FolderSelected(old(State()), folderId) && mappings == old(mappings)
    {
      songsFolderId := Some(folderId);
    }

    /** The setter of the `mappings` field used by the name-matching step. */
    method HandleMappingsChange(newMappings: seq<FolderToSongMapping>)
      modifies this
      ensures mappings == Some(newMappings) && State() == old(State())
    {
      mappings := Some(newMappings);
    }
  }
}
