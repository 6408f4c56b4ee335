/**
 * The ORM tables of the `user` app as values, their database constraints
 * (unique email, one Customer per user, foreign keys) and the row inserts
 * `save()` performs under those constraints, plus `AgoraUser.get_full_name`.
 *
 * A row of an append-only table is identified by its position: the primary
 * key of `customers[i]` is `i`. Users are keyed by their integer id.
 */
module Models {
  import opened Wrappers
  import opened PyStr

  type UserId = int

  /** A value passed as an extra keyword field to the user model. */
  datatype Value = BoolValue(b: bool) | StringValue(s: string)

  /** What `set_password` stores: a hash of the raw password, or an unusable one for `None`. */
  datatype Password = Unusable | Hashed(raw: string)

  /** `AgoraUser`: email is the login name; `fields` holds the other keyword fields, such as `is_staff`. */
  datatype User = User(
    email: string,
    password: Password,
    firstName: string,
    lastName: string,
    nickname: string,
    fields: map<string, Value>)
  {
    /** `get_full_name`: first name, the nickname in parentheses, last name. */
    function FullName(): (r: string)
      ensures Trimmed(r)
    {
      var nick := if nickname != "" then "(" + Strip(nickname) + ")" else "";
      Strip(Strip(firstName) + " " + nick + " " + Strip(lastName))
    }
  }

  datatype Customer = Customer(user: UserId, stripeCustomerId: string)

  /**
   * `customer` is the position of the Customer row. `expirationDate` (seconds)
   * is written by the checkout handler but not declared on the model class.
   */
  datatype Subscription = Subscription(customer: nat, stripeSubscriptionId: string, expirationDate: int)

  /** `verifiedAt` (seconds) is written by the identity handler but not declared on the model class. */
  datatype IdentityVerification = IdentityVerification(
    user: UserId,
    sessionId: string,
    issuingCountry: Option<string>,
    verifiedAt: Option<int>)

  datatype UserDateOfBirth = UserDateOfBirth(user: UserId, day: Option<int>, month: Option<int>, year: Option<int>)

  datatype UserPhoneNumber = UserPhoneNumber(user: UserId, phoneNumber: string, country: string, verified: Option<int>)

  datatype Constraint = UniqueEmail | UniqueCustomerUser | ForeignKey

  /** The exceptions the modelled code raises or lets through. */
  datatype Error =
    | ValueError(message: string)
    | AttributeError(message: string)
    | IntegrityError(violated: Constraint)
    | DoesNotExist
    | MultipleObjectsReturned

  /** The persisted state: every table of the `user` app the core reads or writes. */
  datatype Tables = Tables(
    users: map<UserId, User>,
    nextUserId: UserId,
    customers: seq<Customer>,
    subscriptions: seq<Subscription>,
    identityVerifications: seq<IdentityVerification>,
    datesOfBirth: seq<UserDateOfBirth>,
    phoneNumbers: seq<UserPhoneNumber>)
  {
    /** Some user other than `except` already has this email. */
    predicate EmailTaken(email: string, except: Option<UserId>) {
      exists k :: k in users && Some(k) != except && users[k].email == email
    }

    /** Position of the user's Customer row, if there is one. */
    function CustomerIndexOf(user: UserId): (r: Option<nat>)
      ensures r.Some? ==> r.value < |customers| && customers[r.value].user == user
      ensures r.None? <==> forall i :: 0 <= i < |customers| ==> customers[i].user != user
    {
      FirstCustomerOf(customers, user)
    }

    /** The database constraints: unique email, at most one Customer per user, foreign keys. */
    ghost predicate Valid() {
      && (forall a, b :: a in users && b in users && a != b ==> users[a].email != users[b].email)
      && (forall k :: k in users ==> k < nextUserId)
      && (forall i, j :: 0 <= i < j < |customers| ==> customers[i].user != customers[j].user)
      && (forall i :: 0 <= i < |customers| ==> customers[i].user in users)
      && (forall i :: 0 <= i < |subscriptions| ==> subscriptions[i].customer < |customers|)
      && (forall i :: 0 <= i < |identityVerifications| ==> identityVerifications[i].user in users)
      && (forall i :: 0 <= i < |datesOfBirth| ==> datesOfBirth[i].user in users)
      && (forall i :: 0 <= i < |phoneNumbers| ==> phoneNumbers[i].user in users)
    }

    /** `user.save()` of a new user: refused on a duplicate email, else stored under the next id. */
    function InsertUser(u: User): (e: Effect<UserId>)
      ensures Valid() ==> e.tables.Valid()
      ensures e.result.Failure? <==> exists k :: k in users && users[k].email == u.email
      ensures e.result.Failure? ==> e.tables == this && e.result.error == IntegrityError(UniqueEmail)
      ensures e.result.Success? ==>
        && e.result.value == nextUserId
        && e.tables == this.(users := users[nextUserId := u], nextUserId := nextUserId + 1)
      ensures Valid() && e.result.Success? ==> e.result.value !in users
    {
      if EmailTaken(u.email, None) then Effect(this, Failure(IntegrityError(UniqueEmail)))
      else Effect(this.(users := users[nextUserId := u], nextUserId := nextUserId + 1), Success(nextUserId))
    }

    /** `user.save()` of an existing user with changed fields: the new email must stay unique. */
    function UpdateUser(id: UserId, u: User): (e: Effect<User>)
      requires id in users
      ensures Valid() ==> e.tables.Valid()
      ensures e.result.Failure? <==> exists k :: k in users && k != id && users[k].email == u.email
      ensures e.result.Failure? ==> e.tables == this && e.result.error == IntegrityError(UniqueEmail)
      ensures e.result.Success? ==> e.tables == this.(users := users[id := u]) && e.result.value == u
    {
      if EmailTaken(u.email, Some(id)) then Effect(this, Failure(IntegrityError(UniqueEmail)))
      else Effect(this.(users := users[id := u]), Success(u))
    }

    /** `Customer(...).save()`: the user must exist and must not have a Customer yet. */
    function InsertCustomer(user: UserId, stripeCustomerId: string): (e: Effect<nat>)
      ensures Valid() ==> e.tables.Valid()
      ensures e.result.Success? <==> user in users && forall i :: 0 <= i < |customers| ==> customers[i].user != user
      ensures e.result.Failure? ==> e.tables == this
      ensures user !in users ==> e.result == Failure(IntegrityError(ForeignKey))
      ensures user in users && e.result.Failure? ==> e.result.error == IntegrityError(UniqueCustomerUser)
      ensures e.result.Success? ==>
        && e.tables == this.(customers := customers + [Customer(user, stripeCustomerId)])
        && e.result.value == |customers|
    {
      if user !in users then Effect(this, Failure(IntegrityError(ForeignKey)))
      else if CustomerIndexOf(user).Some? then Effect(this, Failure(IntegrityError(UniqueCustomerUser)))
      else Effect(this.(customers := customers + [Customer(user, stripeCustomerId)]), Success(|customers|))
    }

    /** `Subscription(...).save()`: the Customer row must exist. */
    function InsertSubscription(customer: nat, stripeSubscriptionId: string, expirationDate: int): (e: Effect<nat>)
      ensures Valid() ==> e.tables.Valid()
      ensures e.result.Success? <==> customer < |customers|
      ensures e.result.Failure? ==> e.tables == this && e.result.error == IntegrityError(ForeignKey)
      ensures e.result.Success? ==>
        && e.tables == this.(subscriptions := subscriptions + [Subscription(customer, stripeSubscriptionId, expirationDate)])
        && e.result.value == |subscriptions|
    {
      if customer >= |customers| then Effect(this, Failure(IntegrityError(ForeignKey)))
      else Effect(this.(subscriptions := subscriptions + [Subscription(customer, stripeSubscriptionId, expirationDate)]),
                  Success(|subscriptions|))
    }

    /** `IdentityVerification(...).save()`: the user must exist. */
    function InsertIdentityVerification(row: IdentityVerification): (e: Effect<nat>)
      ensures Valid() ==> e.tables.Valid()
      ensures e.result.Success? <==> row.user in users
      ensures e.result.Failure? ==> e.tables == this && e.result.error == IntegrityError(ForeignKey)
      ensures e.result.Success? ==> e.tables == this.(identityVerifications := identityVerifications + [row]) && e.result.value == |identityVerifications|
    {
      if row.user !in users then Effect(this, Failure(IntegrityError(ForeignKey)))
      else Effect(this.(identityVerifications := identityVerifications + [row]), Success(|identityVerifications|))
    }

    /** `UserDateOfBirth(...).save()`: the user must exist. */
    function InsertDateOfBirth(row: UserDateOfBirth): (e: Effect<nat>)
      ensures Valid() ==> e.tables.Valid()
      ensures e.result.Success? <==> row.user in users
      ensures e.result.Failure? ==> e.tables == this && e.result.error == IntegrityError(ForeignKey)
      ensures e.result.Success? ==> e.tables == this.(datesOfBirth := datesOfBirth + [row]) && e.result.value == |datesOfBirth|
    {
      if row.user !in users then Effect(this, Failure(IntegrityError(ForeignKey)))
      else Effect(this.(datesOfBirth := datesOfBirth + [row]), Success(|datesOfBirth|))
    }

    /** `UserPhoneNumber(...).save()`: the user must exist. */
    function InsertPhoneNumber(row: UserPhoneNumber): (e: Effect<nat>)
      ensures Valid() ==> e.tables.Valid()
      ensures e.result.Success? <==> row.user in users
      ensures e.result.Failure? ==> e.tables == this && e.result.error == IntegrityError(ForeignKey)
      ensures e.result.Success? ==> e.tables == this.(phoneNumbers := phoneNumbers + [row]) && e.result.value == |phoneNumbers|
    {
      if row.user !in users then Effect(this, Failure(IntegrityError(ForeignKey)))
      else Effect(this.(phoneNumbers := phoneNumbers + [row]), Success(|phoneNumbers|))
    }
  }

  /** The tables after an operation, and what the operation returned or raised. */
  datatype Effect<+T> = Effect(tables: Tables, result: Result<T, Error>)

  function FirstCustomerOf(cs: seq<Customer>, user: UserId): (r: Option<nat>)
    ensures r.Some? ==> r.value < |cs| && cs[r.value].user == user
    ensures r.None? <==> forall i :: 0 <= i < |cs| ==> cs[i].user != user
  {
    if cs == [] then None
    else if cs[0].user == user then Some(0)
    else match FirstCustomerOf(cs[1..], user)
      case None => None
      case Some(i) => Some(i + 1)
  }

  /** An empty database satisfies the constraints. */
  function EmptyTables(): (t: Tables)
    ensures t.Valid() && t.users == map[] && t.customers == [] && t.subscriptions == []
  {
    Tables(map[], 1, [], [], [], [], [])
  }

  // ---- get_full_name ------------------------------------------------------

  /** The stripped name followed by a space, or nothing for an empty name. */
  function Before(name: string): string {
    if Strip(name) == "" then "" else Strip(name) + " "
  }

  /** A space followed by the stripped name, or nothing for an empty name. */
  function After(name: string): string {
    if Strip(name) == "" then "" else " " + Strip(name)
  }

  /** `a` and a space, or nothing when `a` is empty. */
  function SpaceAfter(a: string): string {
    if a == "" then "" else a + " "
  }

  /** A space and `b`, or nothing when `b` is empty. */
  function SpaceBefore(b: string): string {
    if b == "" then "" else " " + b
  }

  /** `lstrip` of `a + " " + rest` drops the space exactly when `a` is empty. */
  lemma {:induction false} LStripJoined(a: string, rest: string)
    requires Trimmed(a)
    requires rest != [] && !IsSpace(rest[0])
    ensures LStrip(a + " " + rest) == SpaceAfter(a) + rest
  {
    if a == "" {
      assert a + " " + rest == " " + rest;
      LStripSpaces(" ", rest);
    } else {
      assert (a + " " + rest)[0] == a[0];
    }
  }

  /** `rstrip` of `core + " " + b` drops the space exactly when `b` is empty. */
  lemma RStripJoined(core: string, b: string)
    requires Trimmed(b)
    requires core != [] && !IsSpace(core[|core| - 1])
    ensures RStrip(core + " " + b) == core + SpaceBefore(b)
  {
    if b == "" {
      RStripTrailingSpace(core);
    } else {
      RStripKeepsTrimmedTail(core, b);
    }
  }

  lemma RStripTrailingSpace(core: string)
    requires core != [] && !IsSpace(core[|core| - 1])
    ensures RStrip(core + " " + "") == core + ""
  {
    assert core + " " + "" == core + " ";
    RStripSpaces(core, " ");
    assert core + "" == core;
  }

  lemma RStripKeepsTrimmedTail(core: string, b: string)
    requires b != [] && Trimmed(b)
    ensures RStrip(core + " " + b) == core + (" " + b)
  {
    var s := core + " " + b;
    assert s[|s| - 1] == b[|b| - 1];
    assert s == core + (" " + b);
  }

  lemma Regroup(a: string, m: string, b: string)
    ensures a + " " + m + " " + b == a + " " + (m + " " + b)
  {
  }

  lemma Regroup2(h: string, m: string, b: string)
    ensures h + (m + " " + b) == h + m + " " + b
  {
  }

  /** `lstrip` of the framed string removes at most the first space. */
  lemma LStripFramed(a: string, m: string, b: string)
    requires Trimmed(a)
    requires m != [] && !IsSpace(m[0])
    ensures LStrip(a + " " + m + " " + b) == SpaceAfter(a) + m + " " + b
  {
    Regroup(a, m, b);
    LStripJoined(a, m + " " + b);
    Regroup2(SpaceAfter(a), m, b);
  }

  lemma LastOfJoined(h: string, m: string)
    requires m != []
    ensures (h + m)[|h + m| - 1] == m[|m| - 1]
  {
  }

  /** Stripping `a + " " + m + " " + b` where `m` has non-whitespace ends and `a`, `b` are stripped. */
  lemma StripFramed(a: string, m: string, b: string)
    requires Trimmed(a) && Trimmed(b)
    requires m != [] && !IsSpace(m[0]) && !IsSpace(m[|m| - 1])
    ensures Strip(a + " " + m + " " + b) == SpaceAfter(a) + m + SpaceBefore(b)
  {
    LStripFramed(a, m, b);
    LastOfJoined(SpaceAfter(a), m);
    RStripJoined(SpaceAfter(a) + m, b);
  }

  /** The parenthesised nickname: its ends are the parentheses. */
  lemma ParenthesisedEnds(n: string)
    ensures var m := "(" + n + ")"; m != [] && m[0] == '(' && m[|m| - 1] == ')'
  {
  }

  /**
   * With a nickname, the parenthesised nickname sits between first and last
   * name with one space on each side that has a name; the emptiness test is
   * on the unstripped nickname, so whitespace alone gives "()".
   */
  lemma FullNameWithNickname(u: User)
    requires u.nickname != ""
    ensures u.FullName() == Before(u.firstName) + "(" + Strip(u.nickname) + ")" + After(u.lastName)
  {
    NicknameFramed(Strip(u.firstName), Strip(u.nickname), Strip(u.lastName));
  }

  lemma NicknameFramed(f: string, n: string, l: string)
    requires Trimmed(f) && Trimmed(l)
    ensures Strip(f + " " + ("(" + n + ")") + " " + l) == SpaceAfter(f) + "(" + n + ")" + SpaceBefore(l)
  {
    ParenthesisedEnds(n);
    StripFramed(f, "(" + n + ")", l);
    Parenthesised(SpaceAfter(f), n, SpaceBefore(l));
  }

  lemma Parenthesised(head: string, n: string, tail: string)
    ensures head + ("(" + n + ")") + tail == head + "(" + n + ")" + tail
  {
  }

  /**
   * Without a nickname, a non-empty first and last name are separated by two
   * spaces; when one of them is empty the full name is the other one alone.
   */
  lemma FullNameWithoutNickname(u: User)
    requires u.nickname == ""
    ensures u.FullName() ==
      (if Strip(u.lastName) == "" then Strip(u.firstName)
       else if Strip(u.firstName) == "" then Strip(u.lastName)
       else Strip(u.firstName) + "  " + Strip(u.lastName))
  {
    var f, l := Strip(u.firstName), Strip(u.lastName);
    if l == "" {
      FirstNameOnly(f);
    } else if f == "" {
      LastNameOnly(l);
    } else {
      TwoSpaces(f, l);
      TwoSpacesTrimmed(f, l);
    }
  }

  lemma FirstNameOnly(f: string)
    requires Trimmed(f)
    ensures Strip(f + " " + "" + " " + "") == f
  {
    assert f + " " + "" + " " + "" == "" + f + "  ";
    StripPadded("", f, "  ");
  }

  lemma LastNameOnly(l: string)
    requires Trimmed(l)
    ensures Strip("" + " " + "" + " " + l) == l
  {
    assert "" + " " + "" + " " + l == "  " + l + "";
    StripPadded("  ", l, "");
  }

  lemma TwoSpaces(f: string, l: string)
    ensures f + " " + "" + " " + l == f + "  " + l
  {
    assert f + " " + "" == f + " ";
    assert (f + " ") + " " == f + "  ";
  }

  lemma TwoSpacesTrimmed(f: string, l: string)
    requires f != "" && l != "" && Trimmed(f) && Trimmed(l)
    ensures Strip(f + "  " + l) == f + "  " + l
  {
    var s := f + "  " + l;
    assert s[0] == f[0] && s[|s| - 1] == l[|l| - 1];
    StripTrimmed(s);
  }

  /** A nickname made only of whitespace still shows up, as "()". */
  lemma WhitespaceNickname(u: User)
    requires u.nickname != "" && AllSpace(u.nickname)
    ensures u.FullName() == Before(u.firstName) + "()" + After(u.lastName)
  {
    StripAllSpace(u.nickname);
    FullNameWithNickname(u);
    EmptyParentheses(Before(u.firstName), After(u.lastName));
  }

  lemma EmptyParentheses(head: string, tail: string)
    ensures head + "(" + "" + ")" + tail == head + "()" + tail
  {
    assert head + "(" + "" == head + "(";
    assert (head + "(") + ")" == head + "()";
  }

  /** With every name field empty the full name is the empty string. */
  lemma FullNameAllEmpty(u: User)
    requires u.firstName == "" && u.lastName == "" && u.nickname == ""
    ensures u.FullName() == ""
  {
    StripAllSpace("");
    AllEmptyJoined();
    StripAllSpace("  ");
  }

  lemma AllEmptyJoined()
    ensures "" + " " + "" + " " + "" == "  " && AllSpace("  ")
  {
  }

  /**
   * The live database with `save()` as its operations. Its fields are the
   * tables of `Tables`; mutating methods elsewhere assign them.
   */
  class Database {
    var users: map<UserId, User>
    var nextUserId: UserId
    var customers: seq<Customer>
    var subscriptions: seq<Subscription>
    var identityVerifications: seq<IdentityVerification>
    var datesOfBirth: seq<UserDateOfBirth>
    var phoneNumbers: seq<UserPhoneNumber>

    function Snapshot(): Tables
      reads this
    {
      Tables(users, nextUserId, customers, subscriptions, identityVerifications, datesOfBirth, phoneNumbers)
    }

    ghost predicate Valid()
      reads this
    {
      Snapshot().Valid()
    }

    constructor ()
      ensures Valid() && Snapshot() == EmptyTables()
    {
      users, nextUserId := map[], 1;
      customers, subscriptions, identityVerifications, datesOfBirth, phoneNumbers := [], [], [], [], [];
    }

    /** `user.save()` for a user not saved before. */
    method SaveNewUser(u: User) returns (r: Result<UserId, Error>)
      requires Valid()
      modifies this
      ensures Valid()
      ensures Effect(Snapshot(), r) == old(Snapshot()).InsertUser(u)
    {
      ghost var e := Snapshot().InsertUser(u);
      if exists k :: k in users && users[k].email == u.email {
        return Failure(IntegrityError(UniqueEmail));
      }
      r := Success(nextUserId);
      users := users[nextUserId := u];
      nextUserId := nextUserId + 1;
    }

    /** `user.save()` for a user already stored under `id`. */
    method SaveUser(id: UserId, u: User) returns (r: Result<User, Error>)
      requires Valid() && id in users
      modifies this
      ensures Valid()
      ensures Effect(Snapshot(), r) == old(Snapshot()).UpdateUser(id, u)
    {
      ghost var e := Snapshot().UpdateUser(id, u);
      if exists k :: k in users && k != id && users[k].email == u.email {
        return Failure(IntegrityError(UniqueEmail));
      }
      users := users[id := u];
      r := Success(u);
    }

    /** `Customer(user=..., stripe_customer_id=...).save()`. */
    method SaveCustomer(user: UserId, stripeCustomerId: string) returns (r: Result<nat, Error>)
      requires Valid()
      modifies this
      ensures Valid()
      ensures Effect(Snapshot(), r) == old(Snapshot()).InsertCustomer(user, stripeCustomerId)
    {
      ghost var e := Snapshot().InsertCustomer(user, stripeCustomerId);
      if user !in users {
        return Failure(IntegrityError(ForeignKey));
      }
      if FirstCustomerOf(customers, user).Some? {
        return Failure(IntegrityError(UniqueCustomerUser));
      }
      r := Success(|customers|);
      customers := customers + [Customer(user, stripeCustomerId)];
    }

    /** `Subscription(...).save()`. */
    method SaveSubscription(customer: nat, stripeSubscriptionId: string, expirationDate: int)
      returns (r: Result<nat, Error>)
      requires Valid()
      modifies this
      ensures Valid()
      ensures Effect(Snapshot(), r) == old(Snapshot()).InsertSubscription(customer, stripeSubscriptionId, expirationDate)
    {
      ghost var e := Snapshot().InsertSubscription(customer, stripeSubscriptionId, expirationDate);
      if customer >= |customers| {
        return Failure(IntegrityError(ForeignKey));
      }
      r := Success(|subscriptions|);
      subscriptions := subscriptions + [Subscription(customer, stripeSubscriptionId, expirationDate)];
    }

    /** `IdentityVerification(...).save()`. */
    method SaveIdentityVerification(row: IdentityVerification) returns (r: Result<nat, Error>)
      requires Valid()
      modifies this
      ensures Valid()
      ensures Effect(Snapshot(), r) == old(Snapshot()).InsertIdentityVerification(row)
    {
      ghost var e := Snapshot().InsertIdentityVerification(row);
      if row.user !in users {
        return Failure(IntegrityError(ForeignKey));
      }
      r := Success(|identityVerifications|);
      identityVerifications := identityVerifications + [row];
    }

    /** `UserDateOfBirth(...).save()`. */
    method SaveDateOfBirth(row: UserDateOfBirth) returns (r: Result<nat, Error>)
      requires Valid()
      modifies this
      ensures Valid()
      ensures Effect(Snapshot(), r) == old(Snapshot()).InsertDateOfBirth(row)
    {
      ghost var e := Snapshot().InsertDateOfBirth(row);
      if row.user !in users {
        return Failure(IntegrityError(ForeignKey));
      }
      r := Success(|datesOfBirth|);
      datesOfBirth := datesOfBirth + [row];
    }

    /** `UserPhoneNumber(...).save()`. */
    method SavePhoneNumber(row: UserPhoneNumber) returns (r: Result<nat, Error>)
      requires Valid()
      modifies this
      ensures Valid()
      ensures Effect(Snapshot(), r) == old(Snapshot()).InsertPhoneNumber(row)
    {
      ghost var e := Snapshot().InsertPhoneNumber(row);
      if row.user !in users {
        return Failure(IntegrityError(ForeignKey));
      }
      r := Success(|phoneNumbers|);
      phoneNumbers := phoneNumbers + [row];
    }
  }
}
