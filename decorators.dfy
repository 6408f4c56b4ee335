/** `onboarding_not_required`: marks a view object as exempt from onboarding, in place. */
module Decorators {
  import opened Wrappers
  import Middleware

  /** A view function object; `onboardingRequired` is its attribute, `None` when it was never set. */
  class View {
    var onboardingRequired: Option<bool>

    constructor ()
      ensures onboardingRequired == None
    {
      onboardingRequired := None;
    }
  }

  /** Sets `onboarding_required = False` on the view and returns that same object. */
  method OnboardingNotRequired(view: View) returns (r: View)
    modifies view
    ensures r == view
    ensures view.onboardingRequired == Some(false)
  {
    view.onboardingRequired := Some(false);
    r := view;
  }

  /** A decorated view passes the middleware, whatever the request and the user. */
  lemma DecoratedViewPasses(view: View, resolution: Middleware.Resolution, path: string,
                            routes: seq<string>, facts: Middleware.UserFacts)
    requires view.onboardingRequired == Some(false)
    ensures Middleware.ProcessView(view.onboardingRequired, resolution, path, routes, facts) == Middleware.Pass
  {
  }

  /** Decorating twice leaves the view as decorating once does, and returns the view itself. */
  method DecorateTwice(view: View) returns (r: View)
    modifies view
    ensures r == view && view.onboardingRequired == Some(false)
  {
    var once := OnboardingNotRequired(view);
    var state := view.onboardingRequired;
    r := OnboardingNotRequired(once);
    assert view.onboardingRequired == state;
  }
}
