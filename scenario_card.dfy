/**
 * The answer card of one exam scenario (ScenarioCard.jsx): a response text
 * area, a submit handler that passes the response to the exam flow, and a
 * hint button that fetches a coaching hint once. Fetching a hint is two
 * observable steps: the click raises `loadingHint`; when the hint call
 * returns, its result is stored and the flag is lowered.
 */
module ScenarioCard {
  import opened JsValues
  import opened JsStrings

  /** The card's local state; `hint` starts as null and holds whatever the hint call returned. */
  datatype CardState = CardState(response: string, hint: JsValue, loadingHint: bool)

  const Initial: CardState := CardState("", Null, false)

  /** What `handleSubmit` passes to `onSubmit`, if it calls it. */
  function Submitted(s: CardState): Option<string> {
    if IsBlank(s.response) then None else Some(s.response)
  }

  /** The state after `handleSubmit`. */
  function Submit(s: CardState): CardState {
    if IsBlank(s.response) then s else s.(response := "", hint := Null)
  }

  /** Whether a click on the hint button goes on to call the hint handler. */
  predicate FetchesHint(s: CardState) {
    !Truthy(s.hint)
  }

  /** The synchronous part of `handleHintClick`. */
  function StartHint(s: CardState): CardState {
    if Truthy(s.hint) then s else s.(loadingHint := true)
  }

  /** The part of `handleHintClick` after the await, given what the hint handler returned. */
  function CompleteHint(s: CardState, hintText: JsValue): CardState {
    s.(hint := hintText, loadingHint := false)
  }

  function EditResponse(s: CardState, text: string): CardState {
    s.(response := text)
  }

  /** The condition under which the submit button is disabled. */
  predicate SubmitDisabled(response: string, isSubmitting: bool) {
    IsBlank(response) || isSubmitting
  }

  // ---------------------------------------------------------------------------
  // Properties

  /** Submitting an all-white-space response does not call `onSubmit` and changes nothing. */
  lemma BlankSubmitIsNoOp(s: CardState)
    ensures Submitted(s).None? <==> AllWhiteSpace(s.response)
    ensures AllWhiteSpace(s.response) ==> Submit(s) == s
  {
    BlankIffAllWhiteSpace(s.response);
  }

  /** Any other submit calls `onSubmit` once with the response as typed, then clears the response and the hint. */
  lemma SubmitPassesUntrimmedResponse(s: CardState)
    requires !AllWhiteSpace(s.response)
    ensures Submitted(s) == Some(s.response)
    ensures Submit(s) == CardState("", Null, s.loadingHint)
  {
    BlankIffAllWhiteSpace(s.response);
  }

  /** A click while a truthy hint is shown does nothing. */
  lemma HintClickWithHintIsNoOp(s: CardState)
    requires Truthy(s.hint)
    ensures StartHint(s) == s && !FetchesHint(s)
  {
  }

  /**
   * A fetch raises the loading flag, then stores the result and lowers it; a
   * falsy result (such as undefined) lets the next click fetch again, a truthy
   * one does not.
   */
  lemma HintFetchCycle(s: CardState, hintText: JsValue)
    requires !Truthy(s.hint)
    ensures StartHint(s).loadingHint && StartHint(s).hint == s.hint && StartHint(s).response == s.response
    ensures var s' := CompleteHint(StartHint(s), hintText);
      && s'.hint == hintText && !s'.loadingHint && s'.response == s.response
      && (FetchesHint(s') <==> !Truthy(hintText))
  {
  }

  /** The submit button is enabled exactly when the response has a non-white-space character and no submission runs. */
  lemma SubmitDisabledIff(response: string, isSubmitting: bool)
    ensures SubmitDisabled(response, isSubmitting) <==> AllWhiteSpace(response) || isSubmitting
    ensures !SubmitDisabled(response, isSubmitting) ==> Submitted(CardState(response, Null, false)) == Some(response)
  {
    BlankIffAllWhiteSpace(response);
  }

  // ---------------------------------------------------------------------------
  // The component

  class Card {
    var response: string
    var hint: JsValue
    var loadingHint: bool

    function Snapshot(): CardState
      reads this
    {
      CardState(response, hint, loadingHint)
    }

    constructor ()
      ensures Snapshot() == Initial
    {
      response := "";
      hint := Null;
      loadingHint := false;
    }

    /** `handleSubmit`; returns the argument of the `onSubmit` call, if one is made. */
    method HandleSubmit() returns (submitted: Option<string>)
      modifies this
      ensures Snapshot() == Submit(old(Snapshot()))
      ensures submitted == Submitted(old(Snapshot()))
    {
      if IsBlank(response) {
        return None;
      }
      submitted := Some(response);
      response := "";
      hint := Null;
    }

    /** `handleHintClick` up to its await; `fetching` says whether the hint handler is called. */
    method BeginHintClick() returns (fetching: bool)
      modifies this
      ensures Snapshot() == StartHint(old(Snapshot()))
      ensures fetching == FetchesHint(old(Snapshot()))
    {
      if Truthy(hint) {
        return false;
      }
      loadingHint := true;
      fetching := true;
    }

    /** The rest of `handleHintClick`, once the hint handler returned `hintText`. */
    method FinishHintClick(hintText: JsValue)
      modifies this
      ensures Snapshot() == CompleteHint(old(Snapshot()), hintText)
    {
      hint := hintText;
      loadingHint := false;
    }

    method SetResponse(text: string)
      modifies this
      ensures Snapshot() == EditResponse(old(Snapshot()), text)
    {
      response := text;
    }
  }
}
