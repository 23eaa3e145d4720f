/**
 * The root layout of the app: it renders nothing until the session store is
 * ready, and its effect redirects to the screen group the session state
 * demands.  Both are pure functions of the session state and the first route
 * segment; the effect's single `router.replace` is the returned route.
 */
module RoutingGuard {
  import opened Common
  import opened Session

  /** The three redirect targets: "/", "/onboarding" and "/(tabs)". */
  datatype Route = Landing | OnboardingRoute | Tabs

  /** The first route segment once `router.replace(route)` has happened. */
  function FirstSegmentAt(route: Route): Option<string>
  {
    match route
    case Landing => None
    case OnboardingRoute => Some("onboarding")
    case Tabs => Some("(tabs)")
  }

  /** The screen groups the guard tells apart; every other segment (a modal, say) is `Elsewhere`. */
  datatype Place = LandingPage | AuthGroup | OnboardingPage | TabsGroup | Elsewhere

  /** `segments[0]` classified: a missing or empty segment and "index" are the landing page. */
  function PlaceOf(segment: Option<string>): (p: Place)
    ensures p == LandingPage <==> !Truthy(segment) || segment == Some("index")
    ensures p == AuthGroup <==> segment == Some("auth")
    ensures p == OnboardingPage <==> segment == Some("onboarding")
    ensures p == TabsGroup <==> segment == Some("(tabs)")
  {
    if !Truthy(segment) || segment.value == "index" then LandingPage
    else if segment.value == "auth" then AuthGroup
    else if segment.value == "onboarding" then OnboardingPage
    else if segment.value == "(tabs)" then TabsGroup
    else Elsewhere
  }

  /** The effect of `RootLayoutNav`: the route it replaces the current one with, if any. */
  function Redirect(s: SessionState, segment: Option<string>): (r: Option<Route>)
    ensures !s.isReady ==> r == None
    ensures s.isReady && !Truthy(s.auth) ==>
      r == if PlaceOf(segment) in {TabsGroup, OnboardingPage} then Some(Landing) else None
    ensures s.isReady && Truthy(s.auth) && s.onboardingCompleted == Some(false) ==>
      r == if PlaceOf(segment) == OnboardingPage then None else Some(OnboardingRoute)
    ensures s.isReady && Truthy(s.auth) && s.onboardingCompleted == Some(true) ==>
      r == if PlaceOf(segment) in {LandingPage, AuthGroup} then Some(Tabs) else None
    ensures s.isReady && Truthy(s.auth) && s.onboardingCompleted.None? ==> r == None
  {
    if !s.isReady then None
    else
      var place := PlaceOf(segment);
      if !Truthy(s.auth) then
        if place == TabsGroup || place == OnboardingPage then Some(Landing) else None
      else if s.onboardingCompleted == Some(false) then
        if place != OnboardingPage then Some(OnboardingRoute) else None
      else if s.onboardingCompleted == Some(true) then
        if place == LandingPage || place == AuthGroup then Some(Tabs) else None
      else None
  }

  /**
   * Where each session state may rest, stated on its own: anywhere before the store is ready or while the
   * onboarding flag is unknown; outside the tabs and onboarding when signed out; only on onboarding before
   * it is done; anywhere but the landing page and the auth screens after.
   */
  function AllowedPlaces(s: SessionState): set<Place>
  {
    var all := {LandingPage, AuthGroup, OnboardingPage, TabsGroup, Elsewhere};
    if !s.isReady then all
    else if !Truthy(s.auth) then all - {TabsGroup, OnboardingPage}
    else match s.onboardingCompleted
      case Some(false) => {OnboardingPage}
      case Some(true) => all - {LandingPage, AuthGroup}
      case None => all
  }

  /** The guard stays put exactly where the state allows it to rest, in both directions. */
  lemma RedirectIffNotAllowed(s: SessionState, segment: Option<string>)
    ensures Redirect(s, segment).None? <==> PlaceOf(segment) in AllowedPlaces(s)
  {
  }

  /** Every redirect lands where the state allows it to rest, so the guard, re-run there with the same state, stays put. */
  lemma RedirectTargetIsFixedPoint(s: SessionState, segment: Option<string>)
    requires Redirect(s, segment).Some?
    ensures PlaceOf(FirstSegmentAt(Redirect(s, segment).value)) in AllowedPlaces(s)
    ensures Redirect(s, FirstSegmentAt(Redirect(s, segment).value)) == None
  {
    RedirectIffNotAllowed(s, FirstSegmentAt(Redirect(s, segment).value));
  }

  /** A signed-out user who has settled is never on the tabs or on onboarding. */
  lemma SignedOutSettlesOutsideProtectedScreens(s: SessionState, segment: Option<string>)
    requires s.isReady && !Truthy(s.auth)
    ensures Redirect(s, segment).None? ==> PlaceOf(segment) !in {TabsGroup, OnboardingPage}
    ensures Redirect(s, segment).Some? ==> PlaceOf(FirstSegmentAt(Redirect(s, segment).value)) == LandingPage
  {
  }

  /** What `RootLayout` renders: nothing, or the navigator whose guard effect yields a redirect. */
  datatype View = Blank | Navigator(redirect: Option<Route>)

  /** `RootLayout`: `null` until the store is ready; then the navigator with the guard's decision. */
  function RootLayout(s: SessionState, segment: Option<string>): (v: View)
    ensures v.Blank? <==> !s.isReady
    ensures v.Navigator? ==> v.redirect == Redirect(s, segment)
  {
    if !s.isReady then Blank else Navigator(Redirect(s, segment))
  }
}
