/**
 * The wizard dialog (`DriveFileSongLinkCreator`, index.tsx): a step counter
 * in component state, the "back"/"next" buttons and the folder callback that
 * writes into the folder-id store. Unlike the store in store.tsx this counter
 * is not clamped: "back" on the first step calls `onClose` and still
 * decrements, and "next" on the last step runs the save handler instead.
 */
module LinkCreatorWizard {
  import opened Seqs
  import FolderIdStore
  import Breadcrumbs

  /** The titles of the three steps, in order. */
  const StepTitles: seq<string> := ["Einleitung", "Ordner auswählen", "Ordnernamen mit Liedern verknüpfen"]

  predicate IsFirstStep(step: int) {
    step == 0
  }

  predicate IsFinalStep(step: int) {
    step == |StepTitles| - 1
  }

  /** `steps[currentStep]?`: the step shown, or nothing when the counter is out of range. */
  function ShownStep(step: int): (r: Option<string>)
    ensures r.Some? <==> 0 <= step < |StepTitles|
    ensures r.Some? ==> r.value == StepTitles[step]
  {
    if 0 <= step < |StepTitles| then Some(StepTitles[step]) else None
  }

  /** What a click on the right-hand button does. */
  datatype NextResult = NextResult(step: int, saveRequested: bool)

  /** What a click on the left-hand button does. */
  datatype PrevResult = PrevResult(step: int, closeRequested: bool)

  function Next(step: int): NextResult {
    if IsFinalStep(step) then NextResult(step, true) else NextResult(step + 1, false)
  }

  function Prev(step: int): PrevResult {
    PrevResult(step - 1, IsFirstStep(step))
  }

  /**
   * Inside the steps, "next" stays inside them and asks for a save exactly on
   * the final step; "back" stays inside them except on the first step, where it
   * asks to close and leaves a counter that shows no step.
   */
  lemma ButtonsWithinSteps(step: int)
    requires 0 <= step < |StepTitles|
    ensures Next(step).saveRequested <==> IsFinalStep(step)
    ensures ShownStep(Next(step).step).Some?
    ensures Prev(step).closeRequested <==> ShownStep(Prev(step).step).None?
  {
  }

  /** Away from the ends, "back" undoes "next" and "next" undoes "back". */
  lemma NextPrevInverse(step: int)
    ensures !IsFinalStep(step) ==> Prev(Next(step).step).step == step
    ensures Next(Prev(step).step).step == step || IsFinalStep(step - 1)
  {
  }

  /** A run of `n` "next" clicks from the first step ends on step `min(n, 2)`. */
  function NextTimes(step: int, n: nat): int
    decreases n
  {
    if n == 0 then step else NextTimes(Next(step).step, n - 1)
  }

  lemma {:induction false} NextTimesFromStart(step: int, n: nat)
    requires 0 <= step < |StepTitles|
    ensures NextTimes(step, n) == if step + n < |StepTitles| then step + n else |StepTitles| - 1
    decreases n
  {
    if n > 0 {
      NextTimesFromStart(Next(step).step, n - 1);
    }
  }

  class Wizard {
    var currentStep: int
    const folderStore: FolderIdStore.Store

    constructor (store: FolderIdStore.Store)
      ensures currentStep == 0 && folderStore == store
    {
      currentStep := 0;
      folderStore := store;
    }

    /** `handleNext`; the save handler only shows a notice, so it is reported, not modelled. */
    method HandleNext() returns (saveRequested: bool)
      modifies this
      ensures NextResult(currentStep, saveRequested) == Next(old(currentStep))
    {
      if currentStep == |StepTitles| - 1 {
        saveRequested := true;
      } else {
        currentStep := currentStep + 1;
        saveRequested := false;
      }
    }

    /** `handlePrev`: `onClose` on the first step, then the decrement in every case. */
    method HandlePrev() returns (closeRequested: bool)
      modifies this
      ensures PrevResult(currentStep, closeRequested) == Prev(old(currentStep))
    {
      closeRequested := currentStep == 0;
      currentStep := currentStep - 1;
    }

    /** `handleFolderSelect(folder)`: the folder's id goes into the store. */
    method HandleFolderSelect(folder: Breadcrumbs.Folder)
      modifies folderStore
      ensures folderStore.songsFolderId == Some(folder.id)
      ensures currentStep == old(currentStep)
    {
      folderStore.SetSongsFolderId(folder.id);
    }
  }
}
