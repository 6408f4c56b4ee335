/**
 * The read-only queries the onboarding gate asks of the tables. Each is a
 * function of a `Tables` value, so none of them can write.
 * `user_has_mfa_enabled` asks allauth; the gate takes its answer as an input.
 */
module Selectors {
  import opened Wrappers
  import opened Models

  /** The Subscription row's Customer belongs to `user` (the join `customer__user=user`). */
  predicate OwnedBy(customers: seq<Customer>, s: Subscription, user: UserId) {
    s.customer < |customers| && customers[s.customer].user == user
  }

  /** `Subscription.objects.filter(customer__user=user)`, in table order. */
  function SubscriptionsOf(customers: seq<Customer>, subs: seq<Subscription>, user: UserId): (r: seq<Subscription>)
    ensures |r| <= |subs|
    ensures forall s :: s in r <==> s in subs && OwnedBy(customers, s, user)
  {
    if subs == [] then []
    else if OwnedBy(customers, subs[0], user) then [subs[0]] + SubscriptionsOf(customers, subs[1..], user)
    else SubscriptionsOf(customers, subs[1..], user)
  }

  /** `user_subscription`: `.get(customer__user=user)`, which raises unless exactly one row matches. */
  function UserSubscription(t: Tables, user: UserId): (r: Result<Subscription, Error>)
    ensures r.Success? <==> |SubscriptionsOf(t.customers, t.subscriptions, user)| == 1
    ensures r.Success? ==> r.value in t.subscriptions && OwnedBy(t.customers, r.value, user)
    ensures r.Failure? ==> r.error == (if SubscriptionsOf(t.customers, t.subscriptions, user) == []
                                       then DoesNotExist else MultipleObjectsReturned)
  {
    var rows := SubscriptionsOf(t.customers, t.subscriptions, user);
    if |rows| == 0 then Failure(DoesNotExist)
    else if |rows| == 1 then (assert rows[0] in rows; Success(rows[0]))
    else Failure(MultipleObjectsReturned)
  }

  /**
   * `user_has_valid_subscription`: `DoesNotExist` becomes `False`; the error
   * for two or more rows is not caught and propagates.
   */
  function UserHasValidSubscription(t: Tables, user: UserId): (r: Result<bool, Error>)
    ensures r == Success(false) <==> SubscriptionsOf(t.customers, t.subscriptions, user) == []
    ensures r == Success(true) <==> |SubscriptionsOf(t.customers, t.subscriptions, user)| == 1
    ensures r.Failure? <==> |SubscriptionsOf(t.customers, t.subscriptions, user)| >= 2
    ensures r.Failure? ==> r.error == MultipleObjectsReturned
  {
    match UserSubscription(t, user)
    case Success(_) => Success(true)
    case Failure(DoesNotExist) => Success(false)
    case Failure(e) => Failure(e)
  }

  /** `IdentityVerification.objects.filter(user=user).exists()` over a list of rows. */
  function AnyVerificationOf(rows: seq<IdentityVerification>, user: UserId): (r: bool)
    ensures r <==> exists i :: 0 <= i < |rows| && rows[i].user == user
  {
    if rows == [] then false
    else rows[0].user == user || (assert forall i :: 0 <= i < |rows| - 1 ==> rows[1..][i] == rows[i + 1];
                                  AnyVerificationOf(rows[1..], user))
  }

  /** `user_has_verified_identity`: any row for the user, whatever its content, counts. */
  function UserHasVerifiedIdentity(t: Tables, user: UserId): (r: bool)
    ensures r <==> exists i :: 0 <= i < |t.identityVerifications| && t.identityVerifications[i].user == user
  {
    AnyVerificationOf(t.identityVerifications, user)
  }

  // ---- properties -----------------------------------------------------------

  /** The number of matching rows does not depend on the rows' expiration dates. */
  lemma {:induction false} SubscriptionsOfIgnoresExpiration(customers: seq<Customer>, subs: seq<Subscription>,
                                                            user: UserId, i: nat, d: int)
    requires i < |subs|
    ensures |SubscriptionsOf(customers, subs[i := subs[i].(expirationDate := d)], user)|
         == |SubscriptionsOf(customers, subs, user)|
  {
    var subs' := subs[i := subs[i].(expirationDate := d)];
    if i == 0 {
      assert subs'[1..] == subs[1..];
    } else {
      assert subs'[1..] == subs[1..][i - 1 := subs[i].(expirationDate := d)];
      SubscriptionsOfIgnoresExpiration(customers, subs[1..], user, i - 1, d);
    }
  }

  /**
   * Subscription validity ignores every expiration date: rewriting one row's
   * date, even into the past, leaves the answer as it is.
   */
  lemma ValidSubscriptionIgnoresExpiration(t: Tables, user: UserId, i: nat, d: int)
    requires i < |t.subscriptions|
    ensures UserHasValidSubscription(t.(subscriptions := t.subscriptions[i := t.subscriptions[i].(expirationDate := d)]), user)
         == UserHasValidSubscription(t, user)
  {
    SubscriptionsOfIgnoresExpiration(t.customers, t.subscriptions, user, i, d);
  }

  /** A user who has no Customer row has no subscription. */
  lemma {:induction false} NoCustomerNoSubscription(customers: seq<Customer>, subs: seq<Subscription>, user: UserId)
    requires forall i :: 0 <= i < |customers| ==> customers[i].user != user
    ensures SubscriptionsOf(customers, subs, user) == []
  {
    if subs != [] {
      NoCustomerNoSubscription(customers, subs[1..], user);
    }
  }

  /** Appending a row owned by `user` adds exactly that row to the user's list. */
  lemma {:induction false} SubscriptionsOfAppend(customers: seq<Customer>, subs: seq<Subscription>,
                                                 s: Subscription, user: UserId)
    ensures SubscriptionsOf(customers, subs + [s], user)
         == SubscriptionsOf(customers, subs, user) + (if OwnedBy(customers, s, user) then [s] else [])
  {
    if subs == [] {
      assert subs + [s] == [s];
    } else {
      assert (subs + [s])[1..] == subs[1..] + [s];
      SubscriptionsOfAppend(customers, subs[1..], s, user);
    }
  }

  /** Adding Customer rows at the end changes nobody's subscriptions. */
  lemma {:induction false} SubscriptionsOfMoreCustomers(customers: seq<Customer>, extra: seq<Customer>,
                                                        subs: seq<Subscription>, user: UserId)
    requires forall i :: 0 <= i < |subs| ==> subs[i].customer < |customers|
    ensures SubscriptionsOf(customers + extra, subs, user) == SubscriptionsOf(customers, subs, user)
  {
    if subs != [] {
      assert (customers + extra)[subs[0].customer] == customers[subs[0].customer];
      SubscriptionsOfMoreCustomers(customers, extra, subs[1..], user);
    }
  }
}
