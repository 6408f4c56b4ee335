/**
 * What the webhook fulfilment rules of `user/services.py` guarantee, and
 * what they do not: customer reuse, one subscription per delivery, the
 * partial writes left behind by a failing step, and the onboarding state a
 * user reaches once both webhooks have been handled.
 */
module ServiceProperties {
  import opened Wrappers
  import opened PyStr
  import opened Models
  import opened Services
  import Selectors
  import Middleware

  /** Under the constraints, a row for `user` is the user's one Customer row. */
  lemma CustomerIndexUnique(t: Tables, user: UserId, k: nat)
    requires t.Valid() && k < |t.customers| && t.customers[k].user == user
    ensures t.CustomerIndexOf(user) == Some(k)
  {
  }

  /**
   * `get_or_create(user=..., stripe_customer_id=...)` under the constraints:
   * the user's row is reused when its Stripe id matches, refused by the
   * one-customer-per-user constraint when it does not, and created otherwise.
   */
  lemma GetOrCreateCustomerCases(t: Tables, user: UserId, stripeCustomerId: string)
    requires t.Valid()
    ensures var e := GetOrCreateCustomerEffect(t, user, stripeCustomerId);
      match t.CustomerIndexOf(user)
      case Some(i) =>
        if t.customers[i].stripeCustomerId == stripeCustomerId then e == Effect(t, Success(i))
        else e == Effect(t, Failure(IntegrityError(UniqueCustomerUser)))
      case None =>
        if user in t.users then
          e == Effect(t.(customers := t.customers + [Customer(user, stripeCustomerId)]), Success(|t.customers|))
        else e == Effect(t, Failure(IntegrityError(ForeignKey)))
  {
    var found := FindCustomer(t.customers, user, stripeCustomerId);
    match t.CustomerIndexOf(user)
    case Some(i) =>
      if found.Some? {
        CustomerIndexUnique(t, user, found.value);
      } else {
        assert t.customers[i] != Customer(user, stripeCustomerId);
      }
    case None =>
  }

  /** Running the customer `get_or_create` a second time changes nothing and returns the same. */
  lemma GetOrCreateCustomerIdempotent(t: Tables, user: UserId, stripeCustomerId: string)
    requires t.Valid()
    ensures var e := GetOrCreateCustomerEffect(t, user, stripeCustomerId);
      GetOrCreateCustomerEffect(e.tables, user, stripeCustomerId) == e
  {
    var e := GetOrCreateCustomerEffect(t, user, stripeCustomerId);
    GetOrCreateCustomerCases(t, user, stripeCustomerId);
    if e.result.Success? {
      CustomerIndexUnique(e.tables, user, e.result.value);
      GetOrCreateCustomerCases(e.tables, user, stripeCustomerId);
    }
  }

  /** The subscription a fulfilled checkout session stores. */
  function StoredSubscription(customer: nat, s: StripeSubscription): (r: Subscription)
    ensures r.customer == customer && r.stripeSubscriptionId == s.id
    ensures r.expirationDate - s.currentPeriodEnd == 365 * 86400
  {
    Subscription(customer, s.id, s.currentPeriodEnd + SubscriptionExtension)
  }

  /** The session carries everything the handler needs after the customer step. */
  predicate Complete(s: CheckoutSession) {
    s.lineItems.Some? && s.lineItems.value != [] && s.subscription.Some?
  }

  /** The user has no Customer row yet, or has one with the session's Stripe customer. */
  predicate CustomerAgrees(t: Tables, user: UserId, stripeCustomerId: string) {
    match t.CustomerIndexOf(user)
    case None => true
    case Some(i) => t.customers[i].stripeCustomerId == stripeCustomerId
  }

  /**
   * A paid, complete session for an existing user whose customer agrees
   * succeeds, leaves the user with a Customer row for the session's Stripe
   * customer, and adds exactly one Subscription row — owned by that user and
   * expiring a year after the paid period ends — to the user's subscriptions.
   */
  lemma CheckoutFulfilled(t: Tables, s: CheckoutSession, user: UserId)
    requires t.Valid() && Fulfils(s) && Complete(s)
    requires ParseUserId(s.clientReferenceId) == Success(user) && user in t.users
    requires CustomerAgrees(t, user, StrOrNone(s.customer))
    ensures var e := CheckoutCompletedEffect(t, s);
      && e.result == Success(())
      && e.tables.CustomerIndexOf(user).Some?
      && var c := e.tables.CustomerIndexOf(user).value;
      && e.tables.customers[c] == Customer(user, StrOrNone(s.customer))
      && e.tables.subscriptions == t.subscriptions + [StoredSubscription(c, s.subscription.value)]
      && Selectors.SubscriptionsOf(e.tables.customers, e.tables.subscriptions, user)
         == Selectors.SubscriptionsOf(t.customers, t.subscriptions, user) + [StoredSubscription(c, s.subscription.value)]
  {
    var sid := StrOrNone(s.customer);
    var c := GetOrCreateCustomerEffect(t, user, sid);
    GetOrCreateCustomerCases(t, user, sid);
    var idx := c.result.value;
    CustomerIndexUnique(c.tables, user, idx);
    var row := StoredSubscription(idx, s.subscription.value);
    var e := CheckoutCompletedEffect(t, s);
    assert e.tables == c.tables.(subscriptions := t.subscriptions + [row]);
    assert c.tables.customers == t.customers + c.tables.customers[|t.customers|..];
    Selectors.SubscriptionsOfMoreCustomers(t.customers, c.tables.customers[|t.customers|..], t.subscriptions, user);
    Selectors.SubscriptionsOfAppend(c.tables.customers, t.subscriptions, row, user);
  }

  /**
   * When the user's Customer row names a different Stripe customer, the
   * handler raises the one-customer-per-user violation and writes nothing.
   */
  lemma CheckoutCustomerConflict(t: Tables, s: CheckoutSession, user: UserId)
    requires t.Valid() && Fulfils(s)
    requires ParseUserId(s.clientReferenceId) == Success(user)
    requires !CustomerAgrees(t, user, StrOrNone(s.customer))
    ensures CheckoutCompletedEffect(t, s) == Effect(t, Failure(IntegrityError(UniqueCustomerUser)))
  {
    GetOrCreateCustomerCases(t, user, StrOrNone(s.customer));
  }

  /**
   * A paid session without line items raises, but the Customer row created
   * on the way stays: the handler has no transaction around its steps.
   */
  lemma MissingLineItemsKeepsCustomer(t: Tables, s: CheckoutSession, user: UserId)
    requires t.Valid() && Fulfils(s) && (s.lineItems.None? || s.lineItems.value == [])
    requires ParseUserId(s.clientReferenceId) == Success(user) && user in t.users
    requires t.CustomerIndexOf(user).None?
    ensures CheckoutCompletedEffect(t, s)
         == Effect(t.(customers := t.customers + [Customer(user, StrOrNone(s.customer))]), Failure(ValueError(NoLineItems)))
  {
    GetOrCreateCustomerCases(t, user, StrOrNone(s.customer));
  }

  /**
   * A checkout session delivered twice is fulfilled twice: the first delivery
   * gives the user a valid subscription, the second a second row, after
   * which the subscription query raises and so does the onboarding gate for
   * any request that is not exempt.
   */
  lemma ReplayedCheckoutBreaksGate(t: Tables, s: CheckoutSession, user: UserId,
                                   flag: Option<bool>, resolution: Middleware.Resolution,
                                   path: string, routes: seq<string>)
    requires t.Valid() && Fulfils(s) && Complete(s)
    requires ParseUserId(s.clientReferenceId) == Success(user) && user in t.users
    requires CustomerAgrees(t, user, StrOrNone(s.customer))
    requires Selectors.SubscriptionsOf(t.customers, t.subscriptions, user) == []
    requires !Middleware.Exempt(flag, resolution, path, routes)
    ensures var once := CheckoutCompletedEffect(t, s);
      && Selectors.UserHasValidSubscription(once.tables, user) == Success(true)
      && var twice := CheckoutCompletedEffect(once.tables, s);
      && twice.result == Success(())
      && Selectors.UserHasValidSubscription(twice.tables, user) == Failure(MultipleObjectsReturned)
      && Middleware.Gate(flag, resolution, path, routes, Some(user), true, twice.tables) == Failure(MultipleObjectsReturned)
  {
    var once := CheckoutCompletedEffect(t, s);
    CheckoutFulfilled(t, s, user);
    CheckoutFulfilled(once.tables, s, user);
    var twice := CheckoutCompletedEffect(once.tables, s);
    Middleware.GateMatchesProcessView(flag, resolution, path, routes, Some(user), true, twice.tables);
  }

  /**
   * For a verified session with outputs, the handler succeeds exactly when
   * the user exists and at most one IdentityVerification row already exists
   * for this user and session; on success the user then has one for this
   * session, the names given replace the stored ones, and no earlier row was
   * altered.
   */
  lemma IdentityCompleted(t: Tables, sessionId: string, v: VerificationSession, user: UserId)
    requires t.Valid() && v.status == "verified" && v.verifiedOutputs.Some?
    requires ParseUserId(v.clientReferenceId) == Success(user)
    ensures var e := IdentityCompletedEffect(t, sessionId, v);
      e.result.Success? <==> user in t.users && |VerificationMatches(t.identityVerifications, user, sessionId)| <= 1
    ensures var e := IdentityCompletedEffect(t, sessionId, v);
      var o := v.verifiedOutputs.value;
      e.result.Success? ==>
        && (exists k :: 0 <= k < |e.tables.identityVerifications|
                        && e.tables.identityVerifications[k].user == user
                        && e.tables.identityVerifications[k].sessionId == sessionId)
        && Selectors.UserHasVerifiedIdentity(e.tables, user)
        && e.tables.users[user].firstName == (if Truthy(o.firstName) then o.firstName.value else t.users[user].firstName)
        && e.tables.users[user].lastName == (if Truthy(o.lastName) then o.lastName.value else t.users[user].lastName)
        && e.tables.users[user].email == t.users[user].email
        && e.tables.users == t.users[user := Renamed(t.users[user], o.firstName, o.lastName)]
  {
    var o := v.verifiedOutputs.value;
    VerifiedOutputsSucceeds(t, user, sessionId, o, v.created);
    if IdentityCompletedEffect(t, sessionId, v).result.Success? {
      VerifiedOutputsWrites(t, user, sessionId, o, v.created);
    }
  }

  /** The steps after the outputs check fail only on a missing user or a duplicated verification row. */
  lemma VerifiedOutputsSucceeds(t: Tables, user: UserId, sessionId: string, o: VerifiedOutputs, created: int)
    requires t.Valid()
    ensures VerifiedOutputsEffect(t, user, sessionId, o, created).result.Success?
        <==> user in t.users && |VerificationMatches(t.identityVerifications, user, sessionId)| <= 1
  {
    var d := DateOfBirthStep(t, user, o.dob);
    var n := NamesStep(d.tables, user, o.firstName, o.lastName);
    var p := PhoneStep(n.tables, user, o.phone, created);
    assert p.tables.identityVerifications == t.identityVerifications;
    var found := VerificationMatches(t.identityVerifications, user, sessionId);
    if |found| > 0 {
      assert found[0] in found;
      assert user in t.users;
    }
  }

  /** What a successful pass over the verified outputs leaves behind. */
  lemma VerifiedOutputsWrites(t: Tables, user: UserId, sessionId: string, o: VerifiedOutputs, created: int)
    requires t.Valid()
    requires VerifiedOutputsEffect(t, user, sessionId, o, created).result.Success?
    ensures var e := VerifiedOutputsEffect(t, user, sessionId, o, created);
      && user in t.users
      && (exists k :: 0 <= k < |e.tables.identityVerifications|
                      && e.tables.identityVerifications[k].user == user
                      && e.tables.identityVerifications[k].sessionId == sessionId)
      && Selectors.UserHasVerifiedIdentity(e.tables, user)
      && e.tables.users[user].firstName == (if Truthy(o.firstName) then o.firstName.value else t.users[user].firstName)
      && e.tables.users[user].lastName == (if Truthy(o.lastName) then o.lastName.value else t.users[user].lastName)
      && e.tables.users[user].email == t.users[user].email
      && e.tables.users == t.users[user := Renamed(t.users[user], o.firstName, o.lastName)]
  {
    var country := if o.address.Some? then o.address.value.country else None;
    var d := DateOfBirthStep(t, user, o.dob);
    var n := NamesStep(d.tables, user, o.firstName, o.lastName);
    var p := PhoneStep(n.tables, user, o.phone, created);
    var g := GetOrCreateVerificationEffect(p.tables, user, sessionId, Some(created), country);
    var e := VerifiedOutputsEffect(t, user, sessionId, o, created);
    assert e.tables == g.tables;
    assert g.result.Success?;
    var k := g.result.value;
    assert e.tables.identityVerifications[k].user == user;
  }

  /**
   * The rows a successful pass over the verified outputs appends: the date of
   * birth as given, the phone with the redacted number, its region and the
   * session's creation time, and a new verification row from the defaults
   * unless one already matched.
   */
  lemma VerifiedOutputsRows(t: Tables, user: UserId, sessionId: string, o: VerifiedOutputs, created: int)
    requires VerifiedOutputsEffect(t, user, sessionId, o, created).result.Success?
    ensures var e := VerifiedOutputsEffect(t, user, sessionId, o, created);
      && e.tables.datesOfBirth ==
           (if o.dob.Some? then t.datesOfBirth + [UserDateOfBirth(user, o.dob.value.day, o.dob.value.month, o.dob.value.year)]
            else t.datesOfBirth)
      && e.tables.phoneNumbers ==
           (if o.phone.Some? then t.phoneNumbers + [UserPhoneNumber(user, RedactedPhoneNumber, o.phone.value.region, Some(created))]
            else t.phoneNumbers)
      && e.tables.identityVerifications ==
           (if VerificationMatches(t.identityVerifications, user, sessionId) == [] then
              t.identityVerifications
              + [IdentityVerification(user, sessionId, if o.address.Some? then o.address.value.country else None, Some(created))]
            else t.identityVerifications)
  {
    var country := if o.address.Some? then o.address.value.country else None;
    var d := DateOfBirthStep(t, user, o.dob);
    var n := NamesStep(d.tables, user, o.firstName, o.lastName);
    var p := PhoneStep(n.tables, user, o.phone, created);
    var g := GetOrCreateVerificationEffect(p.tables, user, sessionId, Some(created), country);
    assert p.tables.identityVerifications == t.identityVerifications;
    assert p.tables.datesOfBirth == d.tables.datesOfBirth;
  }

  /**
   * A verification session that is not `verified` writes nothing, and one
   * whose row already exists keeps that row exactly as it was.
   */
  lemma IdentityExistingRowKept(t: Tables, sessionId: string, v: VerificationSession, user: UserId)
    requires t.Valid() && v.status == "verified"
    requires ParseUserId(v.clientReferenceId) == Success(user)
    requires |VerificationMatches(t.identityVerifications, user, sessionId)| == 1
    ensures IdentityCompletedEffect(t, sessionId, v).tables.identityVerifications == t.identityVerifications
  {
    if v.verifiedOutputs.Some? {
      var o := v.verifiedOutputs.value;
      var d := DateOfBirthStep(t, user, o.dob);
      var n := NamesStep(d.tables, user, o.firstName, o.lastName);
      var p := PhoneStep(n.tables, user, o.phone, v.created);
      assert p.tables.identityVerifications == t.identityVerifications;
    }
  }

  /**
   * A verification row created when the session starts has no verification
   * time, yet it already satisfies the identity check of the onboarding gate.
   */
  lemma StartedVerificationCounts(t: Tables, user: UserId, sessionId: string, country: Option<string>)
    requires user in t.users
    ensures var e := t.InsertIdentityVerification(IdentityVerification(user, sessionId, country, None));
      && e.result.Success?
      && e.tables.identityVerifications[e.result.value] == IdentityVerification(user, sessionId, country, None)
      && Selectors.UserHasVerifiedIdentity(e.tables, user)
  {
    var e := t.InsertIdentityVerification(IdentityVerification(user, sessionId, country, None));
    assert e.tables.identityVerifications[|t.identityVerifications|].user == user;
  }

  /**
   * The request sent to Stripe for an authenticated user names the user in
   * `client_reference_id`, and the completed, paid session that comes back
   * with that reference and customer is fulfilled for the same user: it adds
   * one Subscription row that the user owns.
   */
  lemma CheckoutRequestRoundTrip(t: Tables, user: UserId, priceId: string, providerCustomerId: string,
                                 s: CheckoutSession)
    requires t.Valid() && user in t.users
    requires var e := CheckoutRequestEffect(t, Some(user), priceId, providerCustomerId);
      e.result.Success? && s.clientReferenceId == Some(e.result.value.clientReferenceId)
      && s.customer == Some(e.result.value.customer)
    requires Fulfils(s) && Complete(s)
    ensures var e := CheckoutRequestEffect(t, Some(user), priceId, providerCustomerId);
      var done := CheckoutCompletedEffect(e.tables, s);
      && ParseUserId(s.clientReferenceId) == Success(user)
      && done.result == Success(())
      && |Selectors.SubscriptionsOf(done.tables.customers, done.tables.subscriptions, user)|
         == |Selectors.SubscriptionsOf(e.tables.customers, e.tables.subscriptions, user)| + 1
  {
    var e := CheckoutRequestEffect(t, Some(user), priceId, providerCustomerId);
    ParseIntOfIntToStr(user);
    CheckoutFulfilled(e.tables, s, user);
  }

  /**
   * For an authenticated user the existing Customer row is reused and nothing
   * is written; a user without one gets a row for the provider's customer.
   */
  lemma CheckoutRequestCustomer(t: Tables, user: UserId, priceId: string, providerCustomerId: string)
    requires t.Valid() && user in t.users
    ensures var e := CheckoutRequestEffect(t, Some(user), priceId, providerCustomerId);
      && e.result.Success?
      && match t.CustomerIndexOf(user)
         case Some(i) => e.tables == t && e.result.value.customer == t.customers[i].stripeCustomerId
         case None => e.tables == t.(customers := t.customers + [Customer(user, providerCustomerId)])
                      && e.result.value.customer == providerCustomerId
  {
  }

  /** With no row for the user, no row matches the user and a session. */
  lemma {:induction false} NoVerificationNoMatches(rows: seq<IdentityVerification>, user: UserId, sessionId: string)
    requires forall i :: 0 <= i < |rows| ==> rows[i].user != user
    ensures VerificationMatches(rows, user, sessionId) == []
  {
    if rows != [] {
      NoVerificationNoMatches(rows[..|rows| - 1], user, sessionId);
    }
  }

  /** For a user with MFA and one subscription, the gate only asks about identity. */
  lemma GateAtIdentityStep(flag: Option<bool>, resolution: Middleware.Resolution, path: string, routes: seq<string>,
                           user: UserId, t: Tables)
    requires !Middleware.Exempt(flag, resolution, path, routes)
    requires |Selectors.SubscriptionsOf(t.customers, t.subscriptions, user)| == 1
    ensures Middleware.Gate(flag, resolution, path, routes, Some(user), true, t)
         == Success(if Selectors.UserHasVerifiedIdentity(t, user) then Middleware.Pass
                    else Middleware.Redirect(Middleware.OnboardingIdentity))
  {
  }

  /**
   * A user who has enabled MFA, then completed a paid checkout and then a
   * verified identity session, is let through by the onboarding gate; in
   * between, the gate sends them to the identity step.
   */
  lemma OnboardingCompletes(t: Tables, s: CheckoutSession, sessionId: string, v: VerificationSession, user: UserId,
                            flag: Option<bool>, resolution: Middleware.Resolution, path: string, routes: seq<string>)
    requires t.Valid() && user in t.users
    requires Selectors.SubscriptionsOf(t.customers, t.subscriptions, user) == []
    requires !Selectors.UserHasVerifiedIdentity(t, user)
    requires Fulfils(s) && Complete(s) && ParseUserId(s.clientReferenceId) == Success(user)
    requires CustomerAgrees(t, user, StrOrNone(s.customer))
    requires v.status == "verified" && v.verifiedOutputs.Some? && ParseUserId(v.clientReferenceId) == Success(user)
    requires !Middleware.Exempt(flag, resolution, path, routes)
    ensures var paid := CheckoutCompletedEffect(t, s);
      && Middleware.Gate(flag, resolution, path, routes, Some(user), true, paid.tables)
         == Success(Middleware.Redirect(Middleware.OnboardingIdentity))
      && var verified := IdentityCompletedEffect(paid.tables, sessionId, v);
      && verified.result == Success(())
      && Middleware.Gate(flag, resolution, path, routes, Some(user), true, verified.tables) == Success(Middleware.Pass)
  {
    var paid := CheckoutCompletedEffect(t, s);
    CheckoutFulfilled(t, s, user);
    assert |Selectors.SubscriptionsOf(paid.tables.customers, paid.tables.subscriptions, user)| == 1;
    assert paid.tables.identityVerifications == t.identityVerifications;
    GateAtIdentityStep(flag, resolution, path, routes, user, paid.tables);
    var found := VerificationMatches(paid.tables.identityVerifications, user, sessionId);
    NoVerificationNoMatches(paid.tables.identityVerifications, user, sessionId);
    IdentityCompleted(paid.tables, sessionId, v, user);
    var verified := IdentityCompletedEffect(paid.tables, sessionId, v);
    assert verified.tables.customers == paid.tables.customers;
    assert verified.tables.subscriptions == paid.tables.subscriptions;
    GateAtIdentityStep(flag, resolution, path, routes, user, verified.tables);
  }
}
