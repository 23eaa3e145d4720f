/**
 * What the sign-up and log-in screens do that can be observed, in the order
 * they do it: alerts, changes of the `loading` flag, and calls into the store.
 */
module Screens {
  import opened Common

  datatype UiEvent =
    | ShowAlert(title: string, message: string)
    | SetLoading(on: bool)
    | CallSignUp(email: string, password: string, name: string)
    | CallSignIn(email: string, password: string)
    | CallCheckOnboarding

  /** The `loading` flag after `events`, starting from `initial`: the last value set, if any. */
  function LoadingAfter(initial: bool, events: seq<UiEvent>): bool
    decreases |events|
  {
    if events == [] then initial
    else
      var last := events[|events| - 1];
      if last.SetLoading? then last.on else LoadingAfter(initial, events[..|events| - 1])
  }

  /** Events that never touch the flag leave it as it was. */
  lemma {:induction false} LoadingAfterNoSet(initial: bool, events: seq<UiEvent>)
    requires forall i :: 0 <= i < |events| ==> !events[i].SetLoading?
    ensures LoadingAfter(initial, events) == initial
    decreases |events|
  {
    if events != [] {
      LoadingAfterNoSet(initial, events[..|events| - 1]);
    }
  }

  /** The alert a failed call shows: the error's message, or the screen's fallback when that is empty. */
  function FailureAlert(title: string, completionMessage: string, fallback: string): (e: UiEvent)
    ensures e.ShowAlert? && e.title == title
    ensures completionMessage != "" ==> e.message == completionMessage
    ensures completionMessage == "" ==> e.message == fallback
  {
    ShowAlert(title, OrElse(Some(completionMessage), fallback))
  }
}
