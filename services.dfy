/**
 * The webhook fulfilment rules of `user/services.py` and the row operations
 * they use. Stripe objects arrive as plain records that the caller has
 * already retrieved; each rule is a pure function from the tables before to an
 * `Effect` (tables after, result or error), and each method applies the same
 * rule to the live `Database`.
 */
module Services {
  import opened Wrappers
  import opened PyStr
  import opened Models
  import Selectors

  // ---- Stripe objects, as retrieved --------------------------------------------

  datatype StripeSubscription = StripeSubscription(id: string, currentPeriodEnd: int)

  /** A Checkout Session with `line_items` and `subscription` expanded. */
  datatype CheckoutSession = CheckoutSession(
    status: string,
    paymentStatus: string,
    clientReferenceId: Option<string>,
    customer: Option<string>,
    lineItems: Option<seq<string>>,
    subscription: Option<StripeSubscription>)

  datatype Address = Address(country: Option<string>)
  datatype DateOfBirth = DateOfBirth(day: Option<int>, month: Option<int>, year: Option<int>)
  /** `region` is the region code the phone-number parser finds for `number`. */
  datatype Phone = Phone(number: string, region: string)

  datatype VerifiedOutputs = VerifiedOutputs(
    address: Option<Address>,
    dob: Option<DateOfBirth>,
    firstName: Option<string>,
    lastName: Option<string>,
    phone: Option<Phone>)

  /** An Identity VerificationSession with `verified_outputs` expanded; `created` in seconds. */
  datatype VerificationSession = VerificationSession(
    status: string,
    created: int,
    clientReferenceId: Option<string>,
    verifiedOutputs: Option<VerifiedOutputs>)

  /** The arguments of the `checkout.Session.create` call that this code decides. */
  datatype CheckoutRequest = CheckoutRequest(clientReferenceId: string, customer: string, mode: string,
                                             price: string, quantity: nat)

  // ---- constants and small rules ------------------------------------------------

  /** What is stored instead of the verified phone number. */
  const RedactedPhoneNumber := "REDACTED:STRIPE_IDENTITY"

  /** The grace period added to the end of the paid period: 365 days, in seconds. */
  const SubscriptionExtension: int := 365 * 24 * 60 * 60

  const NotAuthenticated := "User must be authenticated to create a subscription"
  const NoLineItems := "No line items in checkout session"
  const NoSubscriptionObject := "No subscription object in checkout session"
  const NoVerifiedOutputs := "'NoneType' object has no attribute 'address'"

  /** Python truthiness of an optional string: present and not empty. */
  predicate Truthy(s: Option<string>) {
    s.Some? && s.value != ""
  }

  /** `int(str(client_reference_id))`, raising `ValueError("Invalid user ID: ...")`. */
  function ParseUserId(ref: Option<string>): (r: Result<UserId, Error>)
    ensures r.Success? <==> ParseInt(StrOrNone(ref)).Some?
    ensures r.Success? ==> r.value == ParseInt(StrOrNone(ref)).value
    ensures r.Failure? ==> r.error == ValueError("Invalid user ID: " + StrOrNone(ref))
  {
    var s := StrOrNone(ref);
    match ParseInt(s)
    case None => Failure(ValueError("Invalid user ID: " + s))
    case Some(n) => Success(n)
  }

  /** The checkout is fulfilled only when the session is not expired and not unpaid. */
  predicate Fulfils(s: CheckoutSession) {
    s.status != "expired" && s.paymentStatus != "unpaid"
  }

  /** Keeps the tables, drops the value: the effect of a step whose value is not used. */
  function Then<T>(e: Effect<T>): (r: Effect<()>)
    ensures r.tables == e.tables && r.result.Success? == e.result.Success?
    ensures r.result.Failure? ==> r.result.error == e.result.error
  {
    match e.result
    case Success(_) => Effect(e.tables, Success(()))
    case Failure(err) => Effect(e.tables, Failure(err))
  }

  // ---- get_or_create ------------------------------------------------------------

  /** Position of the Customer row with exactly this user and Stripe id. */
  function FindCustomer(cs: seq<Customer>, user: UserId, stripeCustomerId: string): (r: Option<nat>)
    ensures r.Some? ==> r.value < |cs| && cs[r.value] == Customer(user, stripeCustomerId)
    ensures r.None? <==> Customer(user, stripeCustomerId) !in cs
  {
    if cs == [] then None
    else if cs[0] == Customer(user, stripeCustomerId) then Some(0)
    else match FindCustomer(cs[1..], user, stripeCustomerId)
      case None => None
      case Some(i) => Some(i + 1)
  }

  /** `Customer.objects.get_or_create(user=..., stripe_customer_id=...)`. */
  function GetOrCreateCustomerEffect(t: Tables, user: UserId, stripeCustomerId: string): (e: Effect<nat>)
    ensures t.Valid() ==> e.tables.Valid()
    ensures e.result.Success? ==>
      e.result.value < |e.tables.customers| && e.tables.customers[e.result.value] == Customer(user, stripeCustomerId)
  {
    match FindCustomer(t.customers, user, stripeCustomerId)
    case Some(i) => Effect(t, Success(i))
    case None => t.InsertCustomer(user, stripeCustomerId)
  }

  /** Positions, in increasing order, of the rows for this user and verification session. */
  function VerificationMatches(rows: seq<IdentityVerification>, user: UserId, sessionId: string): (r: seq<nat>)
    ensures forall k: nat :: k in r <==> k < |rows| && rows[k].user == user && rows[k].sessionId == sessionId
    ensures forall i, j :: 0 <= i < j < |r| ==> r[i] < r[j]
    ensures forall i :: 0 <= i < |r| ==> r[i] < |rows|
  {
    if rows == [] then []
    else
      var rest := VerificationMatches(rows[..|rows| - 1], user, sessionId);
      var last := rows[|rows| - 1];
      if last.user == user && last.sessionId == sessionId then rest + [|rows| - 1] else rest
  }

  /**
   * `IdentityVerification.objects.get_or_create(user=..., stripe_identity_verification_session_id=...,
   * defaults=...)`: an existing row is returned as it is, several raise, none creates one
   * from the defaults.
   */
  function GetOrCreateVerificationEffect(t: Tables, user: UserId, sessionId: string,
                                         verifiedAt: Option<int>, country: Option<string>): (e: Effect<nat>)
    ensures t.Valid() ==> e.tables.Valid()
    ensures e.tables == t.(identityVerifications := e.tables.identityVerifications)
    ensures t.identityVerifications <= e.tables.identityVerifications
    ensures |e.tables.identityVerifications| <= |t.identityVerifications| + 1
    ensures t.Valid() ==> (e.result.Success? <==>
      user in t.users && |VerificationMatches(t.identityVerifications, user, sessionId)| <= 1)
    ensures e.result.Success? ==>
      e.tables.identityVerifications ==
      (if VerificationMatches(t.identityVerifications, user, sessionId) == [] then
         t.identityVerifications + [IdentityVerification(user, sessionId, country, verifiedAt)]
       else t.identityVerifications)
    ensures e.result.Success? ==>
      (e.result.value < |e.tables.identityVerifications|
       && e.tables.identityVerifications[e.result.value].user == user
       && e.tables.identityVerifications[e.result.value].sessionId == sessionId)
  {
    var found := VerificationMatches(t.identityVerifications, user, sessionId);
    if |found| == 0 then t.InsertIdentityVerification(IdentityVerification(user, sessionId, country, verifiedAt))
    else if |found| == 1 then (assert found[0] in found; Effect(t, Success(found[0])))
    else Effect(t, Failure(MultipleObjectsReturned))
  }

  /** `u` with each name given as a non-empty string in place of the stored one. */
  function Renamed(u: User, first: Option<string>, last: Option<string>): User {
    u.(firstName := if Truthy(first) then first.value else u.firstName,
       lastName := if Truthy(last) then last.value else u.lastName)
  }

  /** `update_user_first_last_names`: only names given as non-empty strings replace the stored ones. */
  function UpdateNamesEffect(t: Tables, user: UserId, first: Option<string>, last: Option<string>): (e: Effect<User>)
    ensures t.Valid() ==> e.tables.Valid()
    ensures user !in t.users ==> e == Effect(t, Failure(DoesNotExist))
    ensures t.Valid() && user in t.users ==> e.result.Success?
    ensures e.result.Failure? ==> e.tables == t
    ensures e.result.Success? ==>
      && user in t.users
      && e.tables == t.(users := t.users[user := e.result.value])
      && e.result.value.firstName == (if Truthy(first) then first.value else t.users[user].firstName)
      && e.result.value.lastName == (if Truthy(last) then last.value else t.users[user].lastName)
      && e.result.value.(firstName := t.users[user].firstName, lastName := t.users[user].lastName) == t.users[user]
  {
    if user !in t.users then Effect(t, Failure(DoesNotExist))
    else t.UpdateUser(user, Renamed(t.users[user], first, last))
  }

  // ---- the two webhook handlers -------------------------------------------------

  /** `handle_checkout_session_completed`, given the retrieved session. */
  function CheckoutCompletedEffect(t: Tables, s: CheckoutSession): (e: Effect<()>)
    ensures t.Valid() ==> e.tables.Valid()
    ensures !Fulfils(s) ==> e == Effect(t, Success(()))
    ensures Fulfils(s) && ParseUserId(s.clientReferenceId).Failure? ==>
      e == Effect(t, Failure(ParseUserId(s.clientReferenceId).error))
    ensures e.tables == t.(customers := e.tables.customers, subscriptions := e.tables.subscriptions)
    ensures t.customers <= e.tables.customers && |e.tables.customers| <= |t.customers| + 1
    ensures t.subscriptions <= e.tables.subscriptions && |e.tables.subscriptions| <= |t.subscriptions| + 1
    ensures e.result.Failure? ==> e.tables.subscriptions == t.subscriptions
  {
    if !Fulfils(s) then Effect(t, Success(()))
    else match ParseUserId(s.clientReferenceId)
      case Failure(err) => Effect(t, Failure(err))
      case Success(user) =>
        var c := GetOrCreateCustomerEffect(t, user, StrOrNone(s.customer));
        if c.result.Failure? then Effect(c.tables, Failure(c.result.error))
        else if s.lineItems.None? || s.lineItems.value == [] then Effect(c.tables, Failure(ValueError(NoLineItems)))
        else if s.subscription.None? then Effect(c.tables, Failure(ValueError(NoSubscriptionObject)))
        else Then(c.tables.InsertSubscription(c.result.value, s.subscription.value.id,
                                              s.subscription.value.currentPeriodEnd + SubscriptionExtension))
  }

  /** The identity handler's date-of-birth step. */
  function DateOfBirthStep(t: Tables, user: UserId, dob: Option<DateOfBirth>): (e: Effect<()>)
    ensures t.Valid() ==> e.tables.Valid()
    ensures e.tables == t.(datesOfBirth := e.tables.datesOfBirth)
    ensures t.datesOfBirth <= e.tables.datesOfBirth && |e.tables.datesOfBirth| <= |t.datesOfBirth| + 1
    ensures e.result.Failure? <==> dob.Some? && user !in t.users
    ensures e.result.Success? ==>
      e.tables.datesOfBirth ==
      (if dob.Some? then t.datesOfBirth + [UserDateOfBirth(user, dob.value.day, dob.value.month, dob.value.year)]
       else t.datesOfBirth)
  {
    match dob
    case None => Effect(t, Success(()))
    case Some(d) => Then(t.InsertDateOfBirth(UserDateOfBirth(user, d.day, d.month, d.year)))
  }

  /** The identity handler's name step, taken only when some name is non-empty. */
  function NamesStep(t: Tables, user: UserId, first: Option<string>, last: Option<string>): (e: Effect<()>)
    ensures t.Valid() ==> e.tables.Valid()
    ensures e.tables == t.(users := e.tables.users) && e.tables.users.Keys == t.users.Keys
    ensures t.Valid() ==> (e.result.Failure? <==> (Truthy(first) || Truthy(last)) && user !in t.users)
    ensures e.result.Success? && user in t.users ==>
      && e.tables.users[user].firstName == (if Truthy(first) then first.value else t.users[user].firstName)
      && e.tables.users[user].lastName == (if Truthy(last) then last.value else t.users[user].lastName)
      && e.tables.users[user].email == t.users[user].email
    ensures e.result.Success? && user in t.users ==>
      e.tables.users == t.users[user := Renamed(t.users[user], first, last)]
    ensures !Truthy(first) && !Truthy(last) ==> e == Effect(t, Success(()))
  {
    if Truthy(first) || Truthy(last) then Then(UpdateNamesEffect(t, user, first, last))
    else Effect(t, Success(()))
  }

  /** The identity handler's phone step. */
  function PhoneStep(t: Tables, user: UserId, phone: Option<Phone>, verifiedAt: int): (e: Effect<()>)
    ensures t.Valid() ==> e.tables.Valid()
    ensures e.tables == t.(phoneNumbers := e.tables.phoneNumbers)
    ensures t.phoneNumbers <= e.tables.phoneNumbers && |e.tables.phoneNumbers| <= |t.phoneNumbers| + 1
    ensures e.result.Failure? <==> phone.Some? && user !in t.users
    ensures e.result.Success? ==>
      e.tables.phoneNumbers ==
      (if phone.Some? then t.phoneNumbers + [UserPhoneNumber(user, RedactedPhoneNumber, phone.value.region, Some(verifiedAt))]
       else t.phoneNumbers)
  {
    match phone
    case None => Effect(t, Success(()))
    case Some(p) => Then(t.InsertPhoneNumber(UserPhoneNumber(user, RedactedPhoneNumber, p.region, Some(verifiedAt))))
  }

  /** `handle_identity_verification_completed`, given the session id and the retrieved session. */
  function IdentityCompletedEffect(t: Tables, sessionId: string, v: VerificationSession): (e: Effect<()>)
    ensures t.Valid() ==> e.tables.Valid()
    ensures v.status != "verified" ==> e == Effect(t, Success(()))
    ensures v.status == "verified" && ParseUserId(v.clientReferenceId).Failure? ==>
      e == Effect(t, Failure(ParseUserId(v.clientReferenceId).error))
    ensures v.status == "verified" && ParseUserId(v.clientReferenceId).Success? && v.verifiedOutputs.None? ==>
      e == Effect(t, Failure(AttributeError(NoVerifiedOutputs)))
    ensures e.tables.customers == t.customers && e.tables.subscriptions == t.subscriptions
    ensures e.tables.nextUserId == t.nextUserId && e.tables.users.Keys == t.users.Keys
    ensures t.identityVerifications <= e.tables.identityVerifications
    ensures |e.tables.identityVerifications| <= |t.identityVerifications| + 1
  {
    if v.status != "verified" then Effect(t, Success(()))
    else match ParseUserId(v.clientReferenceId)
      case Failure(err) => Effect(t, Failure(err))
      case Success(user) =>
        if v.verifiedOutputs.None? then Effect(t, Failure(AttributeError(NoVerifiedOutputs)))
        else VerifiedOutputsEffect(t, user, sessionId, v.verifiedOutputs.value, v.created)
  }

  /** The identity handler once the user id and the verified outputs are known. */
  function VerifiedOutputsEffect(t: Tables, user: UserId, sessionId: string, o: VerifiedOutputs, created: int)
    : (e: Effect<()>)
    ensures t.Valid() ==> e.tables.Valid()
    ensures e.tables.customers == t.customers && e.tables.subscriptions == t.subscriptions
    ensures e.tables.nextUserId == t.nextUserId && e.tables.users.Keys == t.users.Keys
    ensures t.identityVerifications <= e.tables.identityVerifications
    ensures |e.tables.identityVerifications| <= |t.identityVerifications| + 1
  {
    var country := if o.address.Some? then o.address.value.country else None;
    var d := DateOfBirthStep(t, user, o.dob);
    if d.result.Failure? then d
    else
      var n := NamesStep(d.tables, user, o.firstName, o.lastName);
      if n.result.Failure? then n
      else
        var p := PhoneStep(n.tables, user, o.phone, created);
        if p.result.Failure? then p
        else Then(GetOrCreateVerificationEffect(p.tables, user, sessionId, Some(created), country))
  }

  /**
   * The guard and customer reuse of `create_stripe_checkout_session_for_subscription`:
   * `providerCustomerId` is the Stripe customer that search-or-create yields when the
   * user has no Customer row yet.
   */
  function CheckoutRequestEffect(t: Tables, requester: Option<UserId>, priceId: string,
                                 providerCustomerId: string): (e: Effect<CheckoutRequest>)
    ensures t.Valid() ==> e.tables.Valid()
    ensures requester.None? ==> e == Effect(t, Failure(ValueError(NotAuthenticated)))
    ensures e.tables == t.(customers := e.tables.customers)
    ensures e.result.Success? ==>
      && requester.Some?
      && e.result.value == CheckoutRequest(IntToStr(requester.value), e.result.value.customer, "subscription", priceId, 1)
      && e.tables.CustomerIndexOf(requester.value).Some?
      && e.tables.customers[e.tables.CustomerIndexOf(requester.value).value].stripeCustomerId == e.result.value.customer
  {
    match requester
    case None => Effect(t, Failure(ValueError(NotAuthenticated)))
    case Some(user) =>
      match t.CustomerIndexOf(user)
      case Some(i) =>
        Effect(t, Success(CheckoutRequest(IntToStr(user), t.customers[i].stripeCustomerId, "subscription", priceId, 1)))
      case None =>
        var c := t.InsertCustomer(user, providerCustomerId);
        match c.result
        case Failure(err) => Effect(c.tables, Failure(err))
        case Success(_) =>
          assert c.tables.customers[|t.customers|].user == user;
          Effect(c.tables, Success(CheckoutRequest(IntToStr(user), providerCustomerId, "subscription", priceId, 1)))
  }

  // ---- the methods on the live database -----------------------------------------

  /** `create_stripe_customer`, from the point where Stripe has supplied the customer id. */
  method CreateStripeCustomer(db: Database, user: UserId, providerCustomerId: string) returns (r: Result<nat, Error>)
    requires db.Valid()
    modifies db
    ensures db.Valid()
    ensures Effect(db.Snapshot(), r) == old(db.Snapshot()).InsertCustomer(user, providerCustomerId)
  {
    r := db.SaveCustomer(user, providerCustomerId);
  }

  /** `create_subscription`; the customer is given by its row position. */
  method CreateSubscription(db: Database, customer: nat, stripeSubscriptionId: string, expirationDate: int)
    returns (r: Result<nat, Error>)
    requires db.Valid()
    modifies db
    ensures db.Valid()
    ensures Effect(db.Snapshot(), r) == old(db.Snapshot()).InsertSubscription(customer, stripeSubscriptionId, expirationDate)
  {
    r := db.SaveSubscription(customer, stripeSubscriptionId, expirationDate);
  }

  /** `create_identity_verification`: a row with no verification time yet. */
  method CreateIdentityVerification(db: Database, user: UserId, sessionId: string, country: Option<string>)
    returns (r: Result<nat, Error>)
    requires db.Valid()
    modifies db
    ensures db.Valid()
    ensures Effect(db.Snapshot(), r)
         == old(db.Snapshot()).InsertIdentityVerification(IdentityVerification(user, sessionId, country, None))
  {
    r := db.SaveIdentityVerification(IdentityVerification(user, sessionId, country, None));
  }

  /** `create_user_date_of_birth`. */
  method CreateUserDateOfBirth(db: Database, user: UserId, day: Option<int>, month: Option<int>, year: Option<int>)
    returns (r: Result<nat, Error>)
    requires db.Valid()
    modifies db
    ensures db.Valid()
    ensures Effect(db.Snapshot(), r) == old(db.Snapshot()).InsertDateOfBirth(UserDateOfBirth(user, day, month, year))
  {
    r := db.SaveDateOfBirth(UserDateOfBirth(user, day, month, year));
  }

  /** `create_verified_phone_number`: the number itself is never stored. */
  method CreateVerifiedPhoneNumber(db: Database, user: UserId, phone: Phone, verifiedAt: Option<int>)
    returns (r: Result<nat, Error>)
    requires db.Valid()
    modifies db
    ensures db.Valid()
    ensures Effect(db.Snapshot(), r)
         == old(db.Snapshot()).InsertPhoneNumber(UserPhoneNumber(user, RedactedPhoneNumber, phone.region, verifiedAt))
  {
    r := db.SavePhoneNumber(UserPhoneNumber(user, RedactedPhoneNumber, phone.region, verifiedAt));
  }

  /** `update_user_first_last_names`. */
  method UpdateUserFirstLastNames(db: Database, user: UserId, first: Option<string>, last: Option<string>)
    returns (r: Result<User, Error>)
    requires db.Valid()
    modifies db
    ensures db.Valid()
    ensures Effect(db.Snapshot(), r) == UpdateNamesEffect(old(db.Snapshot()), user, first, last)
  {
    if user !in db.users {
      return Failure(DoesNotExist);
    }
    var u := db.users[user];
    if Truthy(first) {
      u := u.(firstName := first.value);
    }
    if Truthy(last) {
      u := u.(lastName := last.value);
    }
    r := db.SaveUser(user, u);
  }

  method GetOrCreateCustomer(db: Database, user: UserId, stripeCustomerId: string) returns (r: Result<nat, Error>)
    requires db.Valid()
    modifies db
    ensures db.Valid()
    ensures Effect(db.Snapshot(), r) == GetOrCreateCustomerEffect(old(db.Snapshot()), user, stripeCustomerId)
  {
    var found := FindCustomer(db.customers, user, stripeCustomerId);
    if found.Some? {
      return Success(found.value);
    }
    r := db.SaveCustomer(user, stripeCustomerId);
  }

  method GetOrCreateVerification(db: Database, user: UserId, sessionId: string,
                                 verifiedAt: Option<int>, country: Option<string>) returns (r: Result<nat, Error>)
    requires db.Valid()
    modifies db
    ensures db.Valid()
    ensures Effect(db.Snapshot(), r) == GetOrCreateVerificationEffect(old(db.Snapshot()), user, sessionId, verifiedAt, country)
  {
    var found := VerificationMatches(db.identityVerifications, user, sessionId);
    if |found| == 1 {
      return Success(found[0]);
    } else if |found| > 1 {
      return Failure(MultipleObjectsReturned);
    }
    r := db.SaveIdentityVerification(IdentityVerification(user, sessionId, country, verifiedAt));
  }

  /** `handle_checkout_session_completed`. */
  method HandleCheckoutSessionCompleted(db: Database, s: CheckoutSession) returns (r: Result<(), Error>)
    requires db.Valid()
    modifies db
    ensures db.Valid()
    ensures Effect(db.Snapshot(), r) == CheckoutCompletedEffect(old(db.Snapshot()), s)
  {
    if s.status == "expired" {
      return Success(());
    }
    if s.paymentStatus != "unpaid" {
      var userIdStr := StrOrNone(s.clientReferenceId);
      var parsed := ParseInt(userIdStr);
      if parsed.None? {
        return Failure(ValueError("Invalid user ID: " + userIdStr));
      }
      var user := parsed.value;
      var stripeCustomerId := StrOrNone(s.customer);
      var customer := GetOrCreateCustomer(db, user, stripeCustomerId);
      if customer.Failure? {
        return Failure(customer.error);
      }
      if s.lineItems.None? || s.lineItems.value == [] {
        return Failure(ValueError(NoLineItems));
      }
      if s.subscription.None? {
        return Failure(ValueError(NoSubscriptionObject));
      }
      var endDate := s.subscription.value.currentPeriodEnd + SubscriptionExtension;
      // The customer row was just found or created, so this insert cannot fail.
      var _ := CreateSubscription(db, customer.value, s.subscription.value.id, endDate);
    }
    return Success(());
  }

  /** `handle_identity_verification_completed`. */
  method HandleIdentityVerificationCompleted(db: Database, sessionId: string, v: VerificationSession)
    returns (r: Result<(), Error>)
    requires db.Valid()
    modifies db
    ensures db.Valid()
    ensures Effect(db.Snapshot(), r) == IdentityCompletedEffect(old(db.Snapshot()), sessionId, v)
  {
    if v.status != "verified" {
      return Success(());
    }
    var verifiedAt := v.created;
    var userIdStr := StrOrNone(v.clientReferenceId);
    var parsed := ParseInt(userIdStr);
    if parsed.None? {
      return Failure(ValueError("Invalid user ID: " + userIdStr));
    }
    var user := parsed.value;
    if v.verifiedOutputs.None? {
      return Failure(AttributeError(NoVerifiedOutputs));
    }
    r := SaveVerifiedOutputs(db, user, sessionId, v.verifiedOutputs.value, verifiedAt);
  }

  /** The rows the identity handler writes from the verified outputs, in the handler's order. */
  method SaveVerifiedOutputs(db: Database, user: UserId, sessionId: string, o: VerifiedOutputs, verifiedAt: int)
    returns (r: Result<(), Error>)
    requires db.Valid()
    modifies db
    ensures db.Valid()
    ensures Effect(db.Snapshot(), r) == VerifiedOutputsEffect(old(db.Snapshot()), user, sessionId, o, verifiedAt)
  {
    var country := if o.address.Some? then o.address.value.country else None;
    r := SaveDateOfBirthStep(db, user, o.dob);
    if r.Failure? {
      return;
    }
    r := SaveNamesStep(db, user, o.firstName, o.lastName);
    if r.Failure? {
      return;
    }
    r := SavePhoneStep(db, user, o.phone, verifiedAt);
    if r.Failure? {
      return;
    }
    var iv := GetOrCreateVerification(db, user, sessionId, Some(verifiedAt), country);
    if iv.Failure? {
      return Failure(iv.error);
    }
    return Success(());
  }

  method SaveDateOfBirthStep(db: Database, user: UserId, dob: Option<DateOfBirth>) returns (r: Result<(), Error>)
    requires db.Valid()
    modifies db
    ensures db.Valid()
    ensures Effect(db.Snapshot(), r) == DateOfBirthStep(old(db.Snapshot()), user, dob)
  {
    r := Success(());
    if dob.Some? {
      var d := CreateUserDateOfBirth(db, user, dob.value.day, dob.value.month, dob.value.year);
      if d.Failure? {
        r := Failure(d.error);
      }
    }
  }

  method SaveNamesStep(db: Database, user: UserId, first: Option<string>, last: Option<string>)
    returns (r: Result<(), Error>)
    requires db.Valid()
    modifies db
    ensures db.Valid()
    ensures Effect(db.Snapshot(), r) == NamesStep(old(db.Snapshot()), user, first, last)
  {
    r := Success(());
    if Truthy(first) || Truthy(last) {
      var n := UpdateUserFirstLastNames(db, user, first, last);
      if n.Failure? {
        r := Failure(n.error);
      }
    }
  }

  method SavePhoneStep(db: Database, user: UserId, phone: Option<Phone>, verifiedAt: int)
    returns (r: Result<(), Error>)
    requires db.Valid()
    modifies db
    ensures db.Valid()
    ensures Effect(db.Snapshot(), r) == PhoneStep(old(db.Snapshot()), user, phone, verifiedAt)
  {
    r := Success(());
    if phone.Some? {
      var p := CreateVerifiedPhoneNumber(db, user, phone.value, Some(verifiedAt));
      if p.Failure? {
        r := Failure(p.error);
      }
    }
  }

  /** The guard and customer reuse of `create_stripe_checkout_session_for_subscription`. */
  method CreateCheckoutSessionForSubscription(db: Database, requester: Option<UserId>, priceId: string,
                                              providerCustomerId: string) returns (r: Result<CheckoutRequest, Error>)
    requires db.Valid()
    modifies db
    ensures db.Valid()
    ensures Effect(db.Snapshot(), r) == CheckoutRequestEffect(old(db.Snapshot()), requester, priceId, providerCustomerId)
  {
    if requester.None? {
      return Failure(ValueError(NotAuthenticated));
    }
    var user := requester.value;
    var existing := FirstCustomerOf(db.customers, user);
    var stripeCustomerId: string;
    if existing.Some? {
      stripeCustomerId := db.customers[existing.value].stripeCustomerId;
    } else {
      var created := CreateStripeCustomer(db, user, providerCustomerId);
      match created {
        case Failure(err) => return Failure(err);
        case Success(_) => stripeCustomerId := providerCustomerId;
      }
    }
    r := Success(CheckoutRequest(IntToStr(user), stripeCustomerId, "subscription", priceId, 1));
  }
}
