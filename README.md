# agora onboarding and fulfilment core, in Dafny

The agora site is a Django application. A signed-in user is held on an onboarding
path until they have enabled multi-factor authentication, paid for a subscription
and verified their identity. Each of these facts is a database row written by a
Stripe webhook handler. This project models that path and the pieces around it:

- the onboarding middleware and its view marker;
- the selectors the middleware asks;
- the two webhook handlers and the row operations they use;
- the model constraints those writes run into;
- the admin user-creation form and the user manager;
- the maximum-length password validator;
- the profile visibility rule, the newsletter signup and client IP extraction;
- the SQLite OPTIONS merge in the settings.

The persisted state is a `Tables` value (`models.dfy`):

- users keyed by integer id;
- append-only sequences of Customer, Subscription, IdentityVerification,
  UserDateOfBirth and UserPhoneNumber rows, where a row's primary key is its position;
- a predicate `Valid()` that holds the database constraints: unique email, at most
  one Customer per user, and foreign keys.

The class `Database` holds the same tables as fields. Every operation that writes is
a pure function from the tables before to an `Effect`, meaning the tables after plus
the value returned or the exception raised. The `Save*` methods of `Database`, and
the service methods that take a `Database`, are proved in their `ensures` to apply
that function to the live fields. The properties are proved as
lemmas about the functions.

Stripe objects are plain records that the caller has already retrieved. The outcomes
of allauth's MFA check, Django's permission check, `normalize_email` and the two
profile lookups are inputs. Times are integer seconds.

## Model

| member | source | states |
|---|---|---|
| Middleware.OnboardingRequired | user/middleware.py:29 | the check applies unless the view's attribute is explicitly false; an absent attribute means required |
| Middleware.ProcessView | user/middleware.py:21-56 | an opted-out view, an exempt route name or an exempt path prefix passes; a redirect always goes to an onboarding step the user has not done |
| Middleware.ProcessViewIsFunnel | user/middleware.py:21-56 | an exempt request passes; otherwise the decision is the redirect to the first unmet step of login, MFA, billing, identity, or Pass when all four hold |
| Middleware.PassIff | user/middleware.py:28-56 | a request passes exactly when it is exempt or the user meets all four onboarding facts |
| Middleware.OptedOutViewPasses | user/middleware.py:28-30 | a view whose `onboarding_required` is false passes whatever the user |
| Middleware.ExemptNamePasses | user/middleware.py:32-37 | a resolved url_name in the exempt list passes |
| Middleware.UnresolvableContinues | user/middleware.py:34-39 | a path that does not resolve is decided as if its name were not exempt |
| Middleware.ExemptPrefixPasses | user/middleware.py:41-42 | a path starting with an exempt entry passes |
| Middleware.EmptyEntryExemptsEverything | user/middleware.py:41-42 | an empty string in the exempt list exempts every path |
| Middleware.StepPriority | user/middleware.py:44-56 | for a request that is not exempt: anonymous goes to login, then no MFA to MFA, then no subscription to billing, then no identity to identity, whatever the later facts |
| Middleware.RedirectIgnoresPath | user/middleware.py:58-60 | two redirects for the same user are equal whatever the paths: no next page is carried |
| Middleware.AnyPrefix | user/middleware.py:41 | true exactly when some exempt entry is a prefix of the path |
| Middleware.UnsetRoutesExemptNothing | user/middleware.py:29-56 | with the exempt-routes setting unset, only the view's flag and the onboarding steps decide |
| Middleware.Gate | user/middleware.py:28-56 | with the selectors asked in order, the middleware can only raise MultipleObjectsReturned, and only for a signed-in user with MFA; it passes exactly when exempt or when the user has MFA, exactly one subscription and a verification row |
| Middleware.GateMatchesProcessView | user/middleware.py:44-56 | with the selectors asked lazily, the middleware raises exactly when it reaches the subscription check for a user with two or more Subscription rows; otherwise it decides as over the stored facts |
| Decorators.OnboardingNotRequired | user/decorators.py:1-6 | sets the view's `onboarding_required` to false and returns the same object |
| Decorators.DecorateTwice | user/decorators.py:1-6 | decorating twice leaves the same state as once and returns the view itself |
| Decorators.DecoratedViewPasses | user/decorators.py:5 | a decorated view passes the middleware |
| Selectors.SubscriptionsOf | user/selectors.py:11 | the rows kept are exactly the Subscription rows whose Customer belongs to the user |
| Selectors.UserSubscription | user/selectors.py:10-11 | succeeds exactly when one row matches; otherwise DoesNotExist for none, MultipleObjectsReturned for several |
| Selectors.UserHasValidSubscription | user/selectors.py:14-19 | false for no matching row, true for one, and an uncaught MultipleObjectsReturned for two or more |
| Selectors.UserHasVerifiedIdentity | user/selectors.py:22-23 | true exactly when some IdentityVerification row belongs to the user, whatever its content |
| Selectors.ValidSubscriptionIgnoresExpiration | user/selectors.py:10-19 | rewriting a row's expiration date, even into the past, leaves the answer unchanged |
| Selectors.NoCustomerNoSubscription | user/selectors.py:11 | a user without a Customer row has no subscription rows |
| Selectors.SubscriptionsOfAppend | user/selectors.py:11 | appending a row adds it to the owner's list and to no one else's |
| Selectors.SubscriptionsOfMoreCustomers | user/selectors.py:11 | adding Customer rows changes nobody's subscriptions |
| Models.User.FullName | user/models.py:24-32 | the full name never starts or ends with whitespace |
| Models.FullNameWithNickname | user/models.py:28-32 | with a nickname, the result is the stripped first name and a space, the stripped nickname in parentheses, then a space and the stripped last name, trimmed at the ends |
| Models.FullNameWithoutNickname | user/models.py:28-32 | without a nickname, a non-empty first and last name are separated by two spaces; with one of them empty the result is the other stripped name alone, and with both empty it is "" |
| Models.WhitespaceNickname | user/models.py:29-30 | a nickname of whitespace only shows as "()" between the names |
| Models.FullNameAllEmpty | user/models.py:31-32 | all three fields empty give "" |
| Models.Tables.InsertUser | user/models.py:10 | saving a new user fails with the unique-email violation exactly when the email is taken and then changes nothing; otherwise the user is stored under the next id, which was unused, and every other table is unchanged; constraints are kept |
| Models.Tables.UpdateUser | user/models.py:10 | saving an existing user fails with the unique-email violation exactly when another user has the email, and then changes nothing; otherwise only that user is replaced and every other table is unchanged |
| Models.Tables.InsertCustomer | user/models.py:94-96 | a Customer row is stored exactly when the user exists and has none yet, as the next position, with nothing else changed; an unknown user is a foreign-key violation and a second Customer the one-per-user violation, and both change nothing |
| Models.Tables.InsertSubscription | user/models.py:102-104 | a Subscription row is appended at the next position exactly when its Customer row exists, with nothing else changed; otherwise a foreign-key violation and no change |
| Models.Tables.InsertIdentityVerification | user/models.py:111-115 | the IdentityVerification row is appended at the next position exactly when its user exists, with nothing else changed; otherwise a foreign-key violation and no change |
| Models.Tables.InsertDateOfBirth | user/services.py:164-166 | the date-of-birth row is appended at the next position exactly when its user exists, with nothing else changed; otherwise a foreign-key violation and no change |
| Models.Tables.InsertPhoneNumber | user/services.py:52-59 | the phone-number row is appended at the next position exactly when its user exists, with nothing else changed; otherwise a foreign-key violation and no change |
| Models.Tables.CustomerIndexOf | user/services.py:86-87 | finds the user's Customer row, or reports that there is none |
| Models.Database.SaveNewUser | user/models.py:10 | applies `InsertUser` to the live tables |
| Models.Database.SaveCustomer | user/models.py:94-96 | applies `InsertCustomer` to the live tables |
| Models.Database.SaveUser | user/models.py:10 | applies `UpdateUser` to the live tables |
| Models.Database.SaveSubscription | user/models.py:102-104 | applies `InsertSubscription` to the live tables |
| Models.Database.SaveIdentityVerification | user/models.py:111-115 | applies `InsertIdentityVerification` to the live tables |
| Models.Database.SaveDateOfBirth | user/services.py:164-166 | applies `InsertDateOfBirth` to the live tables |
| Models.Database.SavePhoneNumber | user/services.py:52-59 | applies `InsertPhoneNumber` to the live tables |
| Services.ParseUserId | user/services.py:185-189 | gives the integer of the reference, or ValueError "Invalid user ID: " followed by the reference's text ("None" when absent) |
| Services.GetOrCreateCustomerEffect | user/services.py:192-194 | returns a Customer row with exactly the user and Stripe id, and keeps the constraints |
| Services.GetOrCreateVerificationEffect | user/services.py:270-277 | succeeds exactly when the user exists and at most one row matches; returns an IdentityVerification row for the user and session; only that table changes: with no match the row built from the defaults is appended, with one match nothing is; keeps the constraints |
| Services.UpdateNamesEffect | user/services.py:64-75 | a missing user raises DoesNotExist; otherwise only names given as non-empty replace the stored ones, and every other field and user is kept |
| Services.CheckoutCompletedEffect | user/services.py:172-214 | an expired or unpaid session writes nothing; a bad reference raises before any write; only Customer and Subscription rows can be added, at most one each, and a failure adds no Subscription |
| Services.IdentityCompletedEffect | user/services.py:221-277 | a session that is not verified writes nothing; a bad reference or missing outputs raise before any write; customers, subscriptions and the set of users are untouched; at most one IdentityVerification row is added |
| Services.DateOfBirthStep | user/services.py:248-254 | only the date-of-birth table changes; on success it gains exactly the given day, month and year for the user when a date is given, and nothing otherwise; it fails exactly when a date is given for an unknown user |
| Services.NamesStep | user/services.py:256-261 | only users change and no user is added or removed; it fails exactly when a name is given for an unknown user; on success the users table is the old one with only this user's names replaced by the non-empty ones given, so every other field and every other user is kept; with no name given nothing changes |
| Services.PhoneStep | user/services.py:263-268 | only the phone-number table changes; on success it gains exactly a row with the redacted number, the phone's region and the verification time when a phone is given, and nothing otherwise; it fails exactly when a phone is given for an unknown user |
| Services.VerifiedOutputsEffect | user/services.py:241-277 | the steps after the outputs check leave customers, subscriptions and the set of users untouched and add at most one IdentityVerification row |
| Services.CheckoutRequestEffect | user/services.py:78-103 | an anonymous requester raises ValueError and writes nothing; otherwise the request names the user in `client_reference_id`, is a one-item subscription for the price, and carries the Stripe id of the user's Customer row |
| Services.HandleCheckoutSessionCompleted | user/services.py:172-214 | applies `CheckoutCompletedEffect` to the live tables |
| Services.HandleIdentityVerificationCompleted | user/services.py:221-277 | applies `IdentityCompletedEffect` to the live tables |
| Services.SaveVerifiedOutputs | user/services.py:241-277 | applies `VerifiedOutputsEffect` to the live tables |
| Services.SaveDateOfBirthStep | user/services.py:248-254 | applies `DateOfBirthStep` to the live tables |
| Services.SaveNamesStep | user/services.py:256-261 | applies `NamesStep` to the live tables |
| Services.SavePhoneStep | user/services.py:263-268 | applies `PhoneStep` to the live tables |
| Services.GetOrCreateCustomer | user/services.py:192-194 | applies `GetOrCreateCustomerEffect` to the live tables |
| Services.GetOrCreateVerification | user/services.py:270-277 | applies `GetOrCreateVerificationEffect` to the live tables |
| Services.CreateCheckoutSessionForSubscription | user/services.py:78-89 | applies `CheckoutRequestEffect` to the live tables |
| Services.CreateStripeCustomer | user/services.py:22-26 | stores the Customer row for the Stripe id obtained |
| Services.CreateSubscription | user/services.py:29-43 | stores one Subscription row, as `InsertSubscription` |
| Services.CreateIdentityVerification | user/services.py:117-131 | stores a row with no verification time and the given country |
| Services.CreateUserDateOfBirth | user/services.py:161-168 | stores one date-of-birth row |
| Services.CreateVerifiedPhoneNumber | user/services.py:46-61 | stores the region and "REDACTED:STRIPE_IDENTITY", never the number |
| Services.UpdateUserFirstLastNames | user/services.py:64-75 | applies `UpdateNamesEffect` to the live tables |
| ServiceProperties.GetOrCreateCustomerCases | user/services.py:192-194 | reuses the user's row when its Stripe id matches; violates one-customer-per-user when it differs; creates a row for a user without one; violates the foreign key for an unknown user |
| ServiceProperties.GetOrCreateCustomerIdempotent | user/services.py:192-194 | a second get-or-create with the same pair changes nothing and returns the same |
| ServiceProperties.CheckoutFulfilled | user/services.py:184-214 | a paid, complete session succeeds and adds exactly one Subscription row, owned by the user and expiring 365 days after the paid period ends |
| ServiceProperties.CheckoutCustomerConflict | user/services.py:192-194 | a user whose Customer row has another Stripe id gets the one-customer-per-user violation and no writes |
| ServiceProperties.MissingLineItemsKeepsCustomer | user/services.py:192-198 | missing line items raise ValueError, and the Customer row created just before remains |
| ServiceProperties.ReplayedCheckoutBreaksGate | user/services.py:171-214 | a session handled twice adds two Subscription rows, after which the subscription selector and the middleware raise MultipleObjectsReturned |
| ServiceProperties.IdentityCompleted | user/services.py:228-277 | a verified session with outputs succeeds exactly when the user exists and at most one matching row exists; then the user has a row for the session, and the users table is the old one with only this user's non-empty given names replaced |
| ServiceProperties.VerifiedOutputsSucceeds | user/services.py:248-277 | the steps after the outputs check succeed exactly when the user exists and at most one matching row exists |
| ServiceProperties.VerifiedOutputsWrites | user/services.py:248-277 | after those steps succeed, the user has a row for the session, and the users table is the old one with only this user's non-empty given names replaced |
| ServiceProperties.IdentityExistingRowKept | user/services.py:270-277 | an existing row for the user and session is kept as it is |
| ServiceProperties.StartedVerificationCounts | user/services.py:123-129 | the row `create_identity_verification` stores for an existing user is exactly the user, the session, the given country and no verification time, and it already satisfies the identity check |
| ServiceProperties.VerifiedOutputsRows | user/services.py:248-277 | after a successful pass over the verified outputs, the date-of-birth rows gain exactly the given date, the phone rows exactly the redacted number with the region and the session's creation time, and the verification rows the row built from the defaults unless one already matched; nothing is added for an absent output |
| ServiceProperties.CheckoutRequestRoundTrip | user/services.py:93 | the `client_reference_id` sent parses back to the same user, and the completed session is then fulfilled for that user |
| ServiceProperties.CheckoutRequestCustomer | user/services.py:86-89 | an existing Customer row is reused with no writes; otherwise one is created for the Stripe id obtained |
| ServiceProperties.OnboardingCompletes | user/services.py:172-277 | after a paid checkout the middleware sends a user with MFA to the identity step; after a verified identity session it lets them through |
| Admin.CleanPassword2 | user/admin.py:69-77 | fails with "Password is required" exactly when a field is missing or empty, and with "Passwords don't match" exactly when both are given and differ; otherwise returns password2 |
| Admin.CreationFormSaveEffect | user/admin.py:79-85 | the user returned has the form's email and password1 as password; nothing is written without commit; with commit the user is stored under the next fresh id, with the counter advanced and every other table unchanged, or the unique-email violation is raised exactly when the email is taken, with no writes |
| Admin.SaveCreationForm | user/admin.py:79-85 | applies `CreationFormSaveEffect` to the live tables |
| Admin.ConfirmedPasswordIsStored | user/admin.py:69-85 | after a passing confirmation check and a committed save of a new email, the user stored under the fresh id `nextUserId` has that email and the confirmed password |
| Managers.SetPassword | user/managers.py:16 | `None` gives an unusable password, any string a password for that string |
| Managers.SetDefault | user/managers.py:23-24 | a key already present keeps its value; an absent key gets the default; other keys are untouched |
| Managers.SuperuserFields | user/managers.py:23-24 | is_staff and is_superuser default to true, explicit values are kept, and other fields pass unchanged |
| Managers.CreateUserEffect | user/managers.py:9-18 | an empty email raises ValueError "The Email field must be set" with no writes; otherwise the user with the normalised email, the password and the extra fields is stored under the id `nextUserId`, the counter advances and every other table is unchanged; the unique-email violation is raised exactly when the normalised email is taken, with no writes |
| Managers.CreateUser | user/managers.py:9-18 | applies `CreateUserEffect` to the live tables |
| Managers.CreateSuperuser | user/managers.py:20-26 | applies `CreateUserEffect` with the superuser fields, so the empty-email check applies too |
| Managers.SuperuserDefaults | user/managers.py:20-26 | a superuser created without explicit flags is staff and superuser |
| PasswordValidation.MaximumLengthValidator.Validate | user/password_validation.py:10-16 | accepts exactly the passwords of at most the limit; otherwise an error with code "password_too_long" and the limit as `max_length`; the user plays no part |
| PasswordValidation.MaximumLengthValidator.HelpText | user/password_validation.py:18-19 | the number in the help text is the limit |
| PasswordValidation.DefaultValidator | user/password_validation.py:7-8 | the default limit is 64 |
| PasswordValidation.LimitItselfAccepted | user/password_validation.py:11 | a password of exactly the limit is accepted, although the help text asks for one shorter |
| ProfileViews.GetObject | agora/core/views.py:23-50 | no handle and no id fails the assertion; the looked-up profile missing gives 404; PermissionDenied exactly when the requester may not view it; otherwise that profile |
| ProfileViews.HandleTakesPrecedence | agora/core/views.py:30-33 | with a handle the id plays no part |
| ProfileViews.OwnProfileVisible | agora/core/views.py:38-40 | one's own profile is returned whatever its visibility |
| ProfileViews.RestrictedProfileNeedsPermission | agora/core/views.py:41-50 | another user's hidden or private profile is refused exactly without the matching permission; other visibilities are returned |
| Newsletter.InvalidFieldsOf | agora/newsletter/services.py:11 | `full_clean` rejects the email exactly when it is not a valid address and the location exactly when it is longer than 255 characters (agora/newsletter/models.py:6-7), and no other field |
| Newsletter.Signup | agora/newsletter/services.py:6-14 | an email already present gives "Email already subscribed." with no writes; a new valid signup appends exactly one row with the email and location and returns it; failed validation writes nothing; unique emails are kept |
| Newsletter.NewsletterTable.SignupNewsletter | agora/newsletter/services.py:6-14 | the loop-and-insert on the live table gives `Signup`'s table and result |
| Newsletter.SecondSignupRefused | agora/newsletter/services.py:7-8 | a second signup with the same email is refused whatever its location |
| Newsletter.SignupKeepsRows | agora/newsletter/services.py:10-12 | every earlier row stays in place |
| ClientIp.GetClientIp | utils/ip.py:1-17 | from a non-empty header the result has no comma and no surrounding whitespace, and a header without a comma gives the whole header stripped; otherwise it is REMOTE_ADDR unchanged, or none |
| ClientIp.SingleHop | utils/ip.py:12-14 | a single-address header gives that address without its surrounding whitespace |
| ClientIp.FirstHopWins | utils/ip.py:13-14 | for a header "first,rest" whose first hop has no comma, the client is that hop stripped |
| ClientIp.BlankFirstHop | utils/ip.py:13-14 | a whitespace-only header, or one starting with a comma, gives "" |
| Settings.WithSqliteOptions | agora/settings.py:391-395 | non-SQLite entries are unchanged; SQLite entries get options whose keys are the union of default and own keys, own values winning and defaults filling the rest |
| Settings.WithSqliteOptionsIdempotent | agora/settings.py:391-395 | merging twice gives the same as once |
| Settings.SqliteDefaultsReachEveryConnection | agora/settings.py:231-245 | a SQLite entry without its own values gets the init_command PRAGMAs and the IMMEDIATE transaction mode |
| Settings.DatabaseSettings.ApplySqliteOptions | agora/settings.py:391-395 | after the loop every entry has been merged as `WithSqliteOptions` says, and the shared defaults are unchanged |
| PyStr.ParseIntOfIntToStr | user/services.py:93 | `int(str(n)) == n` for every integer id |
| PyStr.Strip | user/models.py:32 | the result is trimmed, and is a slice of the input with only whitespace before and after it |
| PyStr.BeforeFirst | utils/ip.py:14 | the text before the first separator: a prefix without the separator, followed by it unless it is the whole input |

## Left out

- The Stripe API calls: customer search and create, checkout session create and
  retrieve, and verification session create and retrieve. Their results are record inputs.
  `create_stripe_customer` is modelled from the moment a Stripe customer id exists.
- The other arguments of the checkout session call: URLs, consent, and an expiry
  one hour from the clock. They are fixed or depend on the clock.
- `create_stripe_identity_verification_session`, `handle_invoice_paid_webhook_event`
  (its body is empty), the webhook endpoint and `user/api.py`: not part of this model.
- The `idempotent_webhook` decorator is not defined in any source file shown
  (`user/decorators.py` defines only `onboarding_not_required`). The
  handlers are modelled without it. No atomicity is assumed either: a failing step
  leaves the earlier writes in place.
- Services.CreateVerifiedPhoneNumber: the phone-number parser is not modelled. Its
  region code comes with the record.
- `full_clean`: field validators are not modelled, and every row passes them. Its
  `validate_unique` step is abstracted too: an existing row with the same unique value
  is reported by the insert itself. For example, in `create_stripe_customer` Django's
  `full_clean` would raise ValidationError for a second Customer of one user. The model
  gives IntegrityError(UniqueCustomerUser) instead, and IntegrityError(UniqueEmail)
  for a taken email. Two more consequences:
  - IdentityVerification declares a non-blank country, which would refuse the `None`
    country that `create_identity_verification` is given.
  - Newsletter.Signup: the email format check is an input. Only the 255-character
    bound on `location` is checked.
- NOT NULL column constraints are not modelled. An `IdentityVerification` created
  with no country is stored as given.
- Django refuses `Customer(user=<int>)` and the like when the instance is built. The
  services pass integer user ids this way. The model treats them as foreign keys by
  id, so a missing user is a foreign-key violation.
- Schema gaps:
  - `Subscription.expiration_date` and `IdentityVerification.verified_at` are written
    by the handlers but not declared. They are added as fields.
  - `UserDateOfBirth` is not declared, and `UserPhoneNumber` has no `user` field.
    The rows are modelled as services.py writes them.
- `selectors.customer_obj` does not appear in the selectors file. It is modelled as
  the lookup of the user's Customer row.
- Services.ParseUserId: Python's `int()` is simplified to an optional `+` or `-` sign
  followed by ASCII digits. Surrounding whitespace, underscores and non-ASCII digits
  are refused here, although Python accepts them.
- `datetime.fromtimestamp` in the local time zone is replaced by integer seconds.
- The handler's truth tests on the verified-outputs objects treat a present object as
  true. An empty Stripe object would be false in Python.
- Managers.CreateUser: `normalize_email` is an input function. Extra keyword
  fields are kept in `fields`, not copied onto the name columns. So a `first_name`
  passed this way is not modelled as setting the first name.
- Password hashing: a password is kept as the raw string it was set from.
- allauth's `is_mfa_enabled`, Django's `resolve`, `redirect`, `get_object_or_404`
  and `has_perm` are inputs.
- `OnboardingNotRequiredMixin` is left out: whether its class attribute reaches the
  middleware depends on Django's `as_view`.
- `ProfileView` refers to `handle` and `visibility` on the user, which the
  `AgoraUser` shown does not declare. The lookups and the visibility are inputs, and
  visibilities other than hidden and private are kept apart by name only.
- The validator's message is an untranslated template. Django renders it, and
  translation is not modelled. The validator is not listed in
  `AUTH_PASSWORD_VALIDATORS`.
- The rest of the settings (environment, logging, storage), the CMS pages, the
  frontend, timestamps of `TimeStampedModel`, logging calls: not modelled.

The model follows the code where the names of fields and functions suggest otherwise:
- any IdentityVerification row counts as a verified identity, even one without a
  verification time;
- a subscription's expiration date is never consulted;
- two Subscription rows for one user make the selector, and with it the middleware,
  raise instead of answering.
