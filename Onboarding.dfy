/**
 * The onboarding screen: a step index over three slides, moved by Next and
 * Previous, and a completion that saves the flag and then navigates whether
 * or not saving worked.
 */
module Onboarding {
  import opened Common
  import opened Storage
  import opened Session
  import opened RoutingGuard

  /** The slides, by title. */
  const ONBOARDING_STEPS: seq<string> := ["Welcome to GrowEasy", "Organize Your Life", "Stay Productive"]
  const LAST_STEP := |ONBOARDING_STEPS| - 1

  const GET_STARTED := "Get Started"
  const NEXT := "Next"

  /** The step after `step`, or None when Next completes instead. */
  function Advance(step: int): (r: Option<int>)
    requires 0 <= step <= LAST_STEP
    ensures r.None? <==> step == LAST_STEP
    ensures r.Some? ==> r.value == step + 1 && 0 <= r.value <= LAST_STEP
  {
    if step < LAST_STEP then Some(step + 1) else None
  }

  /** The step before `step`; the first step stays put. */
  function Retreat(step: int): (r: int)
    requires 0 <= step <= LAST_STEP
    ensures 0 <= r <= LAST_STEP
    ensures step > 0 ==> r == step - 1
    ensures step == 0 ==> r == 0
  {
    if step > 0 then step - 1 else step
  }

  /** Previous undoes Next and Next undoes Previous, wherever both move. */
  lemma AdvanceRetreatInverse(step: int)
    requires 0 <= step <= LAST_STEP
    ensures step < LAST_STEP ==> Retreat(Advance(step).value) == step
    ensures step > 0 ==> Advance(Retreat(step)) == Some(step)
  {
  }

  /** The number of Next presses from `step` up to and including the one that completes. */
  function PressesToComplete(step: int): nat
    requires 0 <= step <= LAST_STEP
    decreases LAST_STEP - step
  {
    match Advance(step)
    case None => 1
    case Some(next) => 1 + PressesToComplete(next)
  }

  /** From any step Next completes after a bounded number of presses: one per remaining slide. */
  lemma {:induction false} PressesToCompleteCount(step: int)
    requires 0 <= step <= LAST_STEP
    ensures PressesToComplete(step) == |ONBOARDING_STEPS| - step
    decreases LAST_STEP - step
  {
    if step < LAST_STEP {
      PressesToCompleteCount(step + 1);
    }
  }

  /** The main button's label: "Get Started" exactly on the last slide. */
  function NextButtonLabel(step: int): (text: string)
    requires 0 <= step <= LAST_STEP
    ensures text == GET_STARTED <==> step == LAST_STEP
    ensures text == GET_STARTED || text == NEXT
  {
    if step == LAST_STEP then GET_STARTED else NEXT
  }

  /** The Previous button appears exactly past the first slide. */
  function ShowsPrevious(step: int): (shown: bool)
    requires 0 <= step <= LAST_STEP
    ensures shown <==> Retreat(step) != step
  {
    step > 0
  }

  /** Where `handleComplete` navigates: the tabs when signed in, the landing page otherwise. */
  function CompletionRoute(auth: Option<string>): (r: Route)
    ensures r == Tabs <==> Truthy(auth)
    ensures r == Landing <==> !Truthy(auth)
  {
    if Truthy(auth) then Tabs else Landing
  }

  class OnboardingScreen {
    var currentStep: int
    const store: AuthStore

    ghost predicate Valid()
      reads this, store, store.storage
    {
      0 <= currentStep <= LAST_STEP && store.Valid()
    }

    /** The screen mounts on the first slide. */
    constructor (store: AuthStore)
      requires store.Valid()
      ensures this.store == store && currentStep == 0 && Valid()
    {
      this.store := store;
      currentStep := 0;
    }

    /** `handleComplete()`: saves the flag, then navigates by the token alone, whether or not saving threw. */
    method HandleComplete(write: WriteResult) returns (route: Route)
      requires Valid()
      modifies store, store.storage
      ensures Valid()
      ensures route == CompletionRoute(old(store.auth))
      ensures write.Written? ==> store.storage.entries == old(store.storage.entries)[ONBOARDING_KEY := "true"]
                                 && store.State() == old(store.State()).(onboardingCompleted := Some(true))
      ensures write.WriteFailed? ==> store.storage.entries == old(store.storage.entries) && store.State() == old(store.State())
    {
      var auth := store.auth;
      var saved := store.CompleteOnboarding(write);
      // The try block and the catch block navigate alike.
      if saved.Done? {
        route := CompletionRoute(auth);
      } else {
        route := CompletionRoute(auth);
      }
    }

    /** `handleNext()`: the next slide, or completion on the last one. */
    method HandleNext(write: WriteResult) returns (route: Option<Route>)
      requires Valid()
      modifies this, store, store.storage
      ensures Valid()
      ensures Advance(old(currentStep)).Some? ==>
        && currentStep == Advance(old(currentStep)).value && route == None
        && store.State() == old(store.State()) && store.storage.entries == old(store.storage.entries)
      ensures Advance(old(currentStep)).None? ==>
        && currentStep == old(currentStep) && route == Some(CompletionRoute(old(store.auth)))
        && (write.Written? ==> store.storage.entries == old(store.storage.entries)[ONBOARDING_KEY := "true"]
                               && store.State() == old(store.State()).(onboardingCompleted := Some(true)))
        && (write.WriteFailed? ==> store.storage.entries == old(store.storage.entries) && store.State() == old(store.State()))
    {
      if currentStep < LAST_STEP {
        currentStep := currentStep + 1;
        route := None;
      } else {
        var done := HandleComplete(write);
        route := Some(done);
      }
    }

    /** `handlePrevious()`: the previous slide; nothing on the first. */
    method HandlePrevious()
      requires Valid()
      modifies this
      ensures Valid()
      ensures currentStep == Retreat(old(currentStep))
    {
      if currentStep > 0 {
        currentStep := currentStep - 1;
      }
    }

    /** `handleSkip()`: completion from any slide. */
    method HandleSkip(write: WriteResult) returns (route: Route)
      requires Valid()
      modifies store, store.storage
      ensures Valid()
      ensures currentStep == old(currentStep)
      ensures route == CompletionRoute(old(store.auth))
      ensures write.Written? ==> store.storage.entries == old(store.storage.entries)[ONBOARDING_KEY := "true"]
                                 && store.State() == old(store.State()).(onboardingCompleted := Some(true))
      ensures write.WriteFailed? ==> store.storage.entries == old(store.storage.entries) && store.State() == old(store.State())
    {
      route := HandleComplete(write);
    }
  }
}
