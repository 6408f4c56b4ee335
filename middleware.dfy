/**
 * `FullyOnboardedUserRequiredMiddleware.process_view`: a view either passes or
 * the user is sent to the first onboarding step they have not completed.
 */
module Middleware {
  import opened Wrappers
  import opened PyStr
  import opened Models
  import Selectors

  /** The named routes the middleware redirects to. */
  datatype Target = AccountLogin | OnboardingMfa | OnboardingBilling | OnboardingIdentity

  /** `None` (let the view run) or `redirect(<route name>)`. The redirect carries only the route. */
  datatype Decision = Pass | Redirect(target: Target)

  /** What `resolve(request.path)` gives: a match with its `url_name` (possibly `None`), or `Resolver404`. */
  datatype Resolution = Unresolvable | Resolved(urlName: Option<string>)

  /** The facts about the requesting user the middleware consults. */
  datatype UserFacts = UserFacts(authenticated: bool, hasMfa: bool, hasSubscription: bool, hasIdentity: bool)

  /** `getattr(view_func, "onboarding_required", True)`: an absent attribute means required. */
  function OnboardingRequired(flag: Option<bool>): (r: bool)
    ensures r <==> flag != Some(false)
  {
    match flag
    case None => true
    case Some(b) => b
  }

  /** `getattr(settings, "AGORA_ONBOARDING_NOT_REQUIRED_ROUTES", [])`. */
  function ExemptRoutes(configured: Option<seq<string>>): seq<string> {
    match configured
    case None => []
    case Some(routes) => routes
  }

  /** `any(path.startswith(route) for route in routes)`. */
  function AnyPrefix(path: string, routes: seq<string>): (r: bool)
    ensures r <==> exists i :: 0 <= i < |routes| && StartsWith(path, routes[i])
  {
    if routes == [] then false
    else
      assert forall i :: 0 <= i < |routes| - 1 ==> routes[1..][i] == routes[i + 1];
      StartsWith(path, routes[0]) || AnyPrefix(path, routes[1..])
  }

  /** The resolved route's url_name is one of the exempt route names. */
  predicate NameExempt(resolution: Resolution, routes: seq<string>) {
    resolution.Resolved? && resolution.urlName.Some? && resolution.urlName.value in routes
  }

  /** The onboarding step behind a redirect target is done. */
  predicate StepDone(target: Target, facts: UserFacts) {
    match target
    case AccountLogin => facts.authenticated
    case OnboardingMfa => facts.hasMfa
    case OnboardingBilling => facts.hasSubscription
    case OnboardingIdentity => facts.hasIdentity
  }

  /** `process_view`: the early-return chain of the middleware. */
  function ProcessView(flag: Option<bool>, resolution: Resolution, path: string,
                       routes: seq<string>, facts: UserFacts): (r: Decision)
    ensures !OnboardingRequired(flag) || NameExempt(resolution, routes) || AnyPrefix(path, routes) ==> r == Pass
    ensures r.Redirect? ==> !StepDone(r.target, facts)
  {
    if !OnboardingRequired(flag) then Pass
    else if NameExempt(resolution, routes) then Pass
    else if AnyPrefix(path, routes) then Pass
    else if !facts.authenticated then Redirect(AccountLogin)
    else if !facts.hasMfa then Redirect(OnboardingMfa)
    else if !facts.hasSubscription then Redirect(OnboardingBilling)
    else if !facts.hasIdentity then Redirect(OnboardingIdentity)
    else Pass
  }

  // ---- an independent statement of the funnel ---------------------------------

  /** The request is exempt from onboarding: by the view's flag, its route name or a path prefix. */
  predicate Exempt(flag: Option<bool>, resolution: Resolution, path: string, routes: seq<string>) {
    || flag == Some(false)
    || NameExempt(resolution, routes)
    || exists e :: e in routes && StartsWith(path, e)
  }

  /** The onboarding steps in their fixed order, each with whether it is done. */
  function Funnel(facts: UserFacts): seq<(bool, Target)> {
    [(facts.authenticated, AccountLogin), (facts.hasMfa, OnboardingMfa),
     (facts.hasSubscription, OnboardingBilling), (facts.hasIdentity, OnboardingIdentity)]
  }

  /** The target of the first step not done, if any. */
  function FirstUnmet(steps: seq<(bool, Target)>): (r: Option<Target>)
    ensures r.None? <==> forall i :: 0 <= i < |steps| ==> steps[i].0
  {
    if steps == [] then None
    else if !steps[0].0 then Some(steps[0].1)
    else (assert forall i :: 0 <= i < |steps| - 1 ==> steps[1..][i] == steps[i + 1];
          FirstUnmet(steps[1..]))
  }

  /** The first unmet step of the funnel, written out. */
  lemma FunnelOrder(facts: UserFacts)
    ensures FirstUnmet(Funnel(facts))
         == if !facts.authenticated then Some(AccountLogin)
            else if !facts.hasMfa then Some(OnboardingMfa)
            else if !facts.hasSubscription then Some(OnboardingBilling)
            else if !facts.hasIdentity then Some(OnboardingIdentity)
            else None
  {
    var s0 := Funnel(facts);
    var s1, s2, s3 := s0[1..], s0[2..], s0[3..];
    assert s1[1..] == s2 && s2[1..] == s3 && s3[1..] == [];
    assert FirstUnmet(s3) == if facts.hasIdentity then None else Some(OnboardingIdentity);
    assert FirstUnmet(s2) == if facts.hasSubscription then FirstUnmet(s3) else Some(OnboardingBilling);
    assert FirstUnmet(s1) == if facts.hasMfa then FirstUnmet(s2) else Some(OnboardingMfa);
  }

  /**
   * The middleware is the funnel: an exempt request passes; any other is
   * redirected to the first unmet step in the order login, MFA, billing,
   * identity, and passes when every step is met.
   */
  lemma ProcessViewIsFunnel(flag: Option<bool>, resolution: Resolution, path: string,
                            routes: seq<string>, facts: UserFacts)
    ensures ProcessView(flag, resolution, path, routes, facts)
         == if Exempt(flag, resolution, path, routes) then Pass
            else match FirstUnmet(Funnel(facts))
                 case None => Pass
                 case Some(t) => Redirect(t)
  {
    FunnelOrder(facts);
    assert (exists e :: e in routes && StartsWith(path, e)) <==> AnyPrefix(path, routes) by {
      if AnyPrefix(path, routes) {
        var i :| 0 <= i < |routes| && StartsWith(path, routes[i]);
        assert routes[i] in routes;
      }
      if exists e :: e in routes && StartsWith(path, e) {
        var e :| e in routes && StartsWith(path, e);
        var i :| 0 <= i < |routes| && routes[i] == e;
      }
    }
  }

  /** The request passes exactly when it is exempt or the user has completed every step. */
  lemma PassIff(flag: Option<bool>, resolution: Resolution, path: string, routes: seq<string>, facts: UserFacts)
    ensures ProcessView(flag, resolution, path, routes, facts) == Pass <==>
      Exempt(flag, resolution, path, routes) ||
      (facts.authenticated && facts.hasMfa && facts.hasSubscription && facts.hasIdentity)
  {
    ProcessViewIsFunnel(flag, resolution, path, routes, facts);
    var steps := Funnel(facts);
    assert FirstUnmet(steps).None? <==> (steps[0].0 && steps[1].0 && steps[2].0 && steps[3].0);
  }

  /** A view whose `onboarding_required` is false passes whatever the user's state. */
  lemma OptedOutViewPasses(resolution: Resolution, path: string, routes: seq<string>, facts: UserFacts)
    ensures ProcessView(Some(false), resolution, path, routes, facts) == Pass
  {
  }

  /** A route whose url_name is in the exempt list passes. */
  lemma ExemptNamePasses(flag: Option<bool>, name: string, path: string, routes: seq<string>, facts: UserFacts)
    requires name in routes
    ensures ProcessView(flag, Resolved(Some(name)), path, routes, facts) == Pass
  {
  }

  /** A path under any exempt prefix passes; an empty entry exempts every path. */
  lemma ExemptPrefixPasses(flag: Option<bool>, resolution: Resolution, path: string, routes: seq<string>,
                           facts: UserFacts, i: nat)
    requires i < |routes| && StartsWith(path, routes[i])
    ensures ProcessView(flag, resolution, path, routes, facts) == Pass
    ensures ProcessView(flag, resolution, path, routes + [""], facts) == Pass
  {
    assert (routes + [""])[i] == routes[i];
  }

  lemma EmptyEntryExemptsEverything(flag: Option<bool>, resolution: Resolution, path: string,
                                    routes: seq<string>, facts: UserFacts)
    requires "" in routes
    ensures ProcessView(flag, resolution, path, routes, facts) == Pass
  {
    var i :| 0 <= i < |routes| && routes[i] == "";
    assert StartsWith(path, routes[i]);
  }

  /**
   * A path that does not resolve is not exempt on that ground: the decision
   * is the one for a resolved route whose name is not exempt.
   */
  lemma UnresolvableContinues(flag: Option<bool>, path: string, routes: seq<string>, facts: UserFacts)
    ensures ProcessView(flag, Unresolvable, path, routes, facts)
         == ProcessView(flag, Resolved(None), path, routes, facts)
  {
  }

  /** The priority order: the earliest unmet step wins whatever the later facts. */
  lemma StepPriority(flag: Option<bool>, resolution: Resolution, path: string, routes: seq<string>, facts: UserFacts)
    requires !Exempt(flag, resolution, path, routes)
    ensures !facts.authenticated ==> ProcessView(flag, resolution, path, routes, facts) == Redirect(AccountLogin)
    ensures facts.authenticated && !facts.hasMfa ==>
      ProcessView(flag, resolution, path, routes, facts) == Redirect(OnboardingMfa)
    ensures facts.authenticated && facts.hasMfa && !facts.hasSubscription ==>
      ProcessView(flag, resolution, path, routes, facts) == Redirect(OnboardingBilling)
    ensures facts.authenticated && facts.hasMfa && facts.hasSubscription && !facts.hasIdentity ==>
      ProcessView(flag, resolution, path, routes, facts) == Redirect(OnboardingIdentity)
  {
    ProcessViewIsFunnel(flag, resolution, path, routes, facts);
  }

  /**
   * Redirects never depend on the requested page: two non-exempt requests by
   * the same user are sent to the same place, whatever their paths. This is
   * what `get_redirect_field_name` returning `None` provides: no "next" page
   * is recorded, and a `Redirect` carries only its route.
   */
  lemma RedirectIgnoresPath(flag: Option<bool>, res1: Resolution, path1: string,
                            res2: Resolution, path2: string, routes: seq<string>, facts: UserFacts)
    requires ProcessView(flag, res1, path1, routes, facts).Redirect?
    requires ProcessView(flag, res2, path2, routes, facts).Redirect?
    ensures ProcessView(flag, res1, path1, routes, facts) == ProcessView(flag, res2, path2, routes, facts)
  {
  }

  /**
   * With `AGORA_ONBOARDING_NOT_REQUIRED_ROUTES` unset no route or path is
   * exempt: only the view's flag and the user's progress decide.
   */
  lemma UnsetRoutesExemptNothing(flag: Option<bool>, resolution: Resolution, path: string, facts: UserFacts)
    ensures ProcessView(flag, resolution, path, ExemptRoutes(None), facts)
         == if flag == Some(false) then Pass
            else match FirstUnmet(Funnel(facts))
                 case None => Pass
                 case Some(t) => Redirect(t)
  {
    ProcessViewIsFunnel(flag, resolution, path, ExemptRoutes(None), facts);
  }

  // ---- the middleware over the stored facts ---------------------------------

  /**
   * `process_view` asking the selectors: `mfaEnabled` is allauth's answer for
   * the user. A selector is only asked once the earlier checks have passed,
   * so its error surfaces only then.
   */
  function Gate(flag: Option<bool>, resolution: Resolution, path: string, routes: seq<string>,
                user: Option<UserId>, mfaEnabled: bool, t: Tables): (r: Result<Decision, Error>)
    ensures r.Failure? ==> r.error == MultipleObjectsReturned && user.Some? && mfaEnabled
    ensures r == Success(Pass) <==>
      || !OnboardingRequired(flag) || NameExempt(resolution, routes) || AnyPrefix(path, routes)
      || (&& user.Some? && mfaEnabled
          && Selectors.UserHasValidSubscription(t, user.value) == Success(true)
          && Selectors.UserHasVerifiedIdentity(t, user.value))
  {
    if !OnboardingRequired(flag) || NameExempt(resolution, routes) || AnyPrefix(path, routes) then Success(Pass)
    else if user.None? then Success(Redirect(AccountLogin))
    else if !mfaEnabled then Success(Redirect(OnboardingMfa))
    else match Selectors.UserHasValidSubscription(t, user.value)
      case Failure(e) => Failure(e)
      case Success(false) => Success(Redirect(OnboardingBilling))
      case Success(true) =>
        if !Selectors.UserHasVerifiedIdentity(t, user.value) then Success(Redirect(OnboardingIdentity))
        else Success(Pass)
  }

  /** The facts the selectors report for `user`, when the subscription query succeeds. */
  function StoredFacts(user: Option<UserId>, mfaEnabled: bool, t: Tables): UserFacts {
    match user
    case None => UserFacts(false, mfaEnabled, false, false)
    case Some(u) =>
      UserFacts(true, mfaEnabled,
                Selectors.UserHasValidSubscription(t, u) == Success(true),
                Selectors.UserHasVerifiedIdentity(t, u))
  }

  /**
   * Over the stored facts the middleware decides as `ProcessView` does, and it
   * raises exactly when it reaches the subscription check for a user with two
   * or more Subscription rows.
   */
  lemma GateMatchesProcessView(flag: Option<bool>, resolution: Resolution, path: string, routes: seq<string>,
                               user: Option<UserId>, mfaEnabled: bool, t: Tables)
    ensures Gate(flag, resolution, path, routes, user, mfaEnabled, t).Failure? <==>
      (&& !Exempt(flag, resolution, path, routes) && user.Some? && mfaEnabled
       && |Selectors.SubscriptionsOf(t.customers, t.subscriptions, user.value)| >= 2)
    ensures Gate(flag, resolution, path, routes, user, mfaEnabled, t).Success? ==>
      Gate(flag, resolution, path, routes, user, mfaEnabled, t).value
        == ProcessView(flag, resolution, path, routes, StoredFacts(user, mfaEnabled, t))
  {
    ProcessViewIsFunnel(flag, resolution, path, routes, StoredFacts(user, mfaEnabled, t));
  }
}
