/**
 * The admin's user creation form (`user/admin.py`): the password
 * confirmation check and `save`, which sets the password from the first
 * field and stores the user only when asked to commit.
 */
module Admin {
  import opened Wrappers
  import opened Models

  const PasswordRequired := "Password is required"
  const PasswordsDontMatch := "Passwords don't match"

  /** A form field that was filled in: present in `cleaned_data` and not empty. */
  predicate Given(field: Option<string>) {
    field.Some? && field.value != ""
  }

  /**
   * `clean_password2`: both fields are required, then they must agree; the
   * error is the message of the `ValidationError` raised.
   */
  function CleanPassword2(password1: Option<string>, password2: Option<string>): (r: Result<string, string>)
    ensures r.Success? <==> Given(password1) && password1 == password2
    ensures r.Success? ==> r.value == password2.value
    ensures r == Failure(PasswordRequired) <==> !Given(password1) || !Given(password2)
    ensures r == Failure(PasswordsDontMatch) <==> Given(password1) && Given(password2) && password1 != password2
  {
    if !Given(password1) || !Given(password2) then Failure(PasswordRequired)
    else if password1 != password2 then Failure(PasswordsDontMatch)
    else Success(password2.value)
  }

  /** The unsaved user the form builds from its one model field, `email`. */
  function FormUser(email: string): (u: User)
    ensures u.email == email && u.password.Unusable? && u.fields == map[]
    ensures u.firstName == "" && u.lastName == "" && u.nickname == ""
  {
    User(email, Unusable, "", "", "", map[])
  }

  /** `UserCreationForm.save(commit)`: the user returned, and the tables after. */
  function CreationFormSaveEffect(t: Tables, email: string, password1: string, commit: bool): (e: Effect<User>)
    ensures t.Valid() ==> e.tables.Valid()
    ensures !commit ==> e.tables == t && e.result.Success?
    ensures e.result.Success? ==> e.result.value == FormUser(email).(password := Hashed(password1))
    ensures commit ==> (e.result.Failure? <==> exists k :: k in t.users && t.users[k].email == email)
    ensures e.result.Failure? ==> e.tables == t && e.result.error == IntegrityError(UniqueEmail)
    ensures commit && e.result.Success? ==>
      e.tables == t.(users := t.users[t.nextUserId := e.result.value], nextUserId := t.nextUserId + 1)
    ensures t.Valid() && commit && e.result.Success? ==> t.nextUserId !in t.users
  {
    var user := FormUser(email).(password := Hashed(password1));
    if !commit then Effect(t, Success(user))
    else
      var saved := t.InsertUser(user);
      match saved.result
      case Success(_) => Effect(saved.tables, Success(user))
      case Failure(err) => Effect(t, Failure(err))
  }

  /** `UserCreationForm.save`. */
  method SaveCreationForm(db: Database, email: string, password1: string, commit: bool) returns (r: Result<User, Error>)
    requires db.Valid()
    modifies db
    ensures db.Valid()
    ensures Effect(db.Snapshot(), r) == CreationFormSaveEffect(old(db.Snapshot()), email, password1, commit)
  {
    var user := FormUser(email);
    user := user.(password := Hashed(password1));
    if commit {
      var saved := db.SaveNewUser(user);
      if saved.Failure? {
        return Failure(saved.error);
      }
    }
    return Success(user);
  }

  /**
   * A form that passed the confirmation check and is saved with commit
   * stores a user whose password is the confirmed one.
   */
  lemma ConfirmedPasswordIsStored(t: Tables, email: string, password1: Option<string>, password2: Option<string>)
    requires CleanPassword2(password1, password2).Success?
    requires !exists k :: k in t.users && t.users[k].email == email
    ensures var e := CreationFormSaveEffect(t, email, password1.value, true);
      && e.result.Success?
      && t.nextUserId in e.tables.users
      && e.tables.users[t.nextUserId].email == email
      && e.tables.users[t.nextUserId].password == Hashed(CleanPassword2(password1, password2).value)
  {
  }
}
