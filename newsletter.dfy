/**
 * `newsletter_signup` (`agora/newsletter/services.py`) over the
 * `NewsletterSubscription` table, whose `email` column is unique. The
 * field validation `full_clean` runs is Django's: whether an email is well
 * formed is passed in; the 255-character bound on `location` is checked.
 */
module Newsletter {
  import opened Wrappers

  datatype NewsletterSubscription = NewsletterSubscription(email: string, location: string)

  const AlreadySubscribed := "Email already subscribed."
  const LocationMaxLength := 255

  /** The `ValidationError` raised: the duplicate check's message, or the fields `full_clean` rejects. */
  datatype SignupError = Duplicate(message: string) | InvalidFields(fields: set<string>)

  /** The fields `full_clean` rejects for a new row, beyond uniqueness. */
  function InvalidFieldsOf(email: string, location: string, validEmail: string -> bool): (r: set<string>)
    ensures "email" in r <==> !validEmail(email)
    ensures "location" in r <==> |location| > LocationMaxLength
    ensures r <= {"email", "location"}
  {
    (if validEmail(email) then {} else {"email"}) + (if |location| > LocationMaxLength then {"location"} else {})
  }

  /** No two rows share an email. */
  predicate UniqueEmails(rows: seq<NewsletterSubscription>) {
    forall i, j :: 0 <= i < j < |rows| ==> rows[i].email != rows[j].email
  }

  /** `filter(email=email).exists()`. */
  predicate Subscribed(rows: seq<NewsletterSubscription>, email: string) {
    exists i :: 0 <= i < |rows| && rows[i].email == email
  }

  /** The table after a signup attempt, and its result. */
  function Signup(rows: seq<NewsletterSubscription>, email: string, location: string, validEmail: string -> bool):
    (r: (seq<NewsletterSubscription>, Result<NewsletterSubscription, SignupError>))
    ensures UniqueEmails(rows) ==> UniqueEmails(r.0)
    ensures Subscribed(rows, email) ==> r == (rows, Failure(Duplicate(AlreadySubscribed)))
    ensures r.1.Failure? ==> r.0 == rows
    ensures r.1.Success? <==> !Subscribed(rows, email) && InvalidFieldsOf(email, location, validEmail) == {}
    ensures r.1.Success? ==> r.1.value == NewsletterSubscription(email, location) && r.0 == rows + [r.1.value]
    ensures Subscribed(r.0, email) <==> Subscribed(rows, email) || r.1.Success?
  {
    if Subscribed(rows, email) then (rows, Failure(Duplicate(AlreadySubscribed)))
    else
      var invalid := InvalidFieldsOf(email, location, validEmail);
      if invalid != {} then (rows, Failure(InvalidFields(invalid)))
      else
        var row := NewsletterSubscription(email, location);
        assert (rows + [row])[|rows|] == row;
        (rows + [row], Success(row))
  }

  /** The table, with its rows in insertion order. */
  class NewsletterTable {
    var rows: seq<NewsletterSubscription>

    ghost predicate Valid()
      reads this
    {
      UniqueEmails(rows)
    }

    constructor ()
      ensures rows == [] && Valid()
    {
      rows := [];
    }

    /** `newsletter_signup`: check, validate, then insert. */
    method SignupNewsletter(email: string, location: string, validEmail: string -> bool)
      returns (r: Result<NewsletterSubscription, SignupError>)
      requires Valid()
      modifies this
      ensures Valid()
      ensures (rows, r) == Signup(old(rows), email, location, validEmail)
    {
      var i := 0;
      while i < |rows|
        invariant 0 <= i <= |rows|
        invariant forall j :: 0 <= j < i ==> rows[j].email != email
      {
        if rows[i].email == email {
          return Failure(Duplicate(AlreadySubscribed));
        }
        i := i + 1;
      }
      var subscription := NewsletterSubscription(email, location);
      var invalid := InvalidFieldsOf(email, location, validEmail);
      if invalid != {} {
        return Failure(InvalidFields(invalid));
      }
      rows := rows + [subscription];
      return Success(subscription);
    }
  }

  /** A second signup with the same email is refused, whatever its location. */
  lemma SecondSignupRefused(rows: seq<NewsletterSubscription>, email: string, l1: string, l2: string,
                            validEmail: string -> bool)
    requires Signup(rows, email, l1, validEmail).1.Success?
    ensures Signup(Signup(rows, email, l1, validEmail).0, email, l2, validEmail)
         == (Signup(rows, email, l1, validEmail).0, Failure(Duplicate(AlreadySubscribed)))
  {
  }

  /** Signups for different emails leave every earlier row where it was. */
  lemma SignupKeepsRows(rows: seq<NewsletterSubscription>, email: string, location: string,
                        validEmail: string -> bool, i: nat)
    requires i < |rows|
    ensures i < |Signup(rows, email, location, validEmail).0|
    ensures Signup(rows, email, location, validEmail).0[i] == rows[i]
  {
  }
}
