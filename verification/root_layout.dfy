/**
 * The root navigator (`RootLayoutNav`): while the startup check runs it shows the
 * splash screen; afterwards it keeps a signed-in user inside the tab group and an
 * anonymous one out of it, and it asks for the weather whenever a user is present.
 */
module RootLayout {
  import opened Base
  import opened AuthContext

  /** What the redirect effect does: nothing, `router.replace('/(tabs)')` or `router.replace('/signin')`. */
  datatype Redirect = Stay | ToTabs | ToSignIn

  /** The route a redirect replaces the current one with. */
  function Path(r: Redirect): (path: string)
    requires r != Stay
    ensures r == ToTabs ==> path == "/(tabs)"
    ensures r == ToSignIn ==> path == "/signin"
  {
    if r == ToTabs then "/(tabs)" else "/signin"
  }

  /** The route segments the router reports once a redirect has happened. */
  function SegmentsAfter(r: Redirect): seq<string>
    requires r != Stay
  {
    if r == ToTabs then ["(tabs)"] else ["signin"]
  }

  /** `segments[0] === '(tabs)'`; an empty segment list has an undefined first element, which is not '(tabs)'. */
  predicate InTabsGroup(segments: seq<string>)
    ensures segments == [] ==> !InTabsGroup(segments)
    ensures InTabsGroup(segments) <==> segments != [] && segments[0] == "(tabs)"
  {
    |segments| > 0 && segments[0] == "(tabs)"
  }

  /** The redirect effect's decision. */
  function RedirectFor(user: Option<User>, authIsLoading: bool, segments: seq<string>): (r: Redirect)
    ensures authIsLoading ==> r == Stay
    ensures !authIsLoading ==> (r == ToTabs <==> user.Some? && !InTabsGroup(segments))
    ensures !authIsLoading ==> (r == ToSignIn <==> user.None? && InTabsGroup(segments))
    ensures r == Stay <==> authIsLoading || user.Some? == InTabsGroup(segments)
  {
    if authIsLoading then Stay
    else if user.Some? && !InTabsGroup(segments) then ToTabs
    else if user.None? && InTabsGroup(segments) then ToSignIn
    else Stay
  }

  /** What the weather effect does when it runs: nothing, call the fetch, or throw. */
  datatype WeatherCall = NoCall | Fetches | ThrowsTypeError

  /**
   * The weather effect over the members the context provides: with a user present it calls
   * `fetchLocationAndWeather`, which throws a TypeError when the context has no such member.
   */
  function WeatherEffect(user: Option<User>, members: set<string>): (w: WeatherCall)
    ensures user.None? ==> w == NoCall
    ensures user.Some? ==> (w == Fetches <==> "fetchLocationAndWeather" in members)
    ensures w == ThrowsTypeError <==> user.Some? && "fetchLocationAndWeather" !in members
  {
    if user.None? then NoCall
    else if "fetchLocationAndWeather" in members then Fetches
    else ThrowsTypeError
  }

  /** As written, the context lacks the member, so every render with a user present throws. */
  lemma WeatherEffectThrowsAsWritten(u: User)
    ensures WeatherEffect(Some(u), ProvidedMembers) == ThrowsTypeError
  {
    assert "fetchLocationAndWeather" !in ProvidedMembers;
  }

  /** The members the navigator evidently expects: the context's own plus the weather fetch. */
  function IntendedMembers(): (members: set<string>)
    ensures ProvidedMembers <= members && "fetchLocationAndWeather" in members
  {
    ProvidedMembers + {"fetchLocationAndWeather"}
  }

  /** With the weather fetch provided, the effect never throws and fetches exactly when a user is present. */
  lemma WeatherEffectIntended(user: Option<User>)
    ensures WeatherEffect(user, IntendedMembers()) != ThrowsTypeError
    ensures WeatherEffect(user, IntendedMembers()) == Fetches <==> user.Some?
  {
  }

  /** What one render of the navigator produces. */
  datatype Frame = Frame(splash: bool, redirect: Redirect, weather: WeatherCall)

  /**
   * One render: the splash screen while the startup check runs (and no redirect then),
   * the redirect decision, and what the weather effect does, given the intended context.
   */
  function Render(user: Option<User>, authIsLoading: bool, segments: seq<string>): (f: Frame)
    ensures f.splash <==> authIsLoading
    ensures f.splash ==> f.redirect == Stay
    ensures f.redirect == RedirectFor(user, authIsLoading, segments)
    ensures f.weather == Fetches <==> user.Some?
    ensures f.weather != ThrowsTypeError
  {
    WeatherEffectIntended(user);
    Frame(authIsLoading, RedirectFor(user, authIsLoading, segments), WeatherEffect(user, IntendedMembers()))
  }

  /** Redirects settle: once the router shows the target route, the next decision is to stay. */
  lemma RedirectSettles(user: Option<User>, segments: seq<string>)
    ensures var r := RedirectFor(user, false, segments);
      r != Stay ==> RedirectFor(user, false, SegmentsAfter(r)) == Stay
  {
  }
}
