/**
 * `AgoraUserManager` (`user/managers.py`): `create_user` refuses an empty
 * email, normalises it, sets the password and saves; `create_superuser`
 * defaults the two permission flags and goes through `create_user`.
 * `normalize_email` is Django's and is taken as a parameter.
 */
module Managers {
  import opened Wrappers
  import opened Models

  const EmailRequired := "The Email field must be set"

  /** `set_password`: `None` gives an unusable password. */
  function SetPassword(password: Option<string>): (p: Password)
    ensures p.Unusable? <==> password.None?
    ensures password.Some? ==> p.raw == password.value
  {
    match password
    case None => Unusable
    case Some(raw) => Hashed(raw)
  }

  /** `dict.setdefault`: the key keeps its value if it has one, else gets `v`. */
  function SetDefault(fields: map<string, Value>, key: string, v: Value): (r: map<string, Value>)
    ensures r.Keys == fields.Keys + {key}
    ensures r[key] == (if key in fields then fields[key] else v)
    ensures forall k :: k in fields && k != key ==> r[k] == fields[k]
  {
    if key in fields then fields else fields[key := v]
  }

  /** The keyword fields `create_superuser` passes on. */
  function SuperuserFields(extra: map<string, Value>): (r: map<string, Value>)
    ensures r.Keys == extra.Keys + {"is_staff", "is_superuser"}
    ensures r["is_staff"] == (if "is_staff" in extra then extra["is_staff"] else BoolValue(true))
    ensures r["is_superuser"] == (if "is_superuser" in extra then extra["is_superuser"] else BoolValue(true))
    ensures forall k :: k in extra && k != "is_staff" && k != "is_superuser" ==> r[k] == extra[k]
  {
    SetDefault(SetDefault(extra, "is_staff", BoolValue(true)), "is_superuser", BoolValue(true))
  }

  /** `create_user`: the new user's id, and the tables after. */
  function CreateUserEffect(t: Tables, normalize: string -> string, email: string, password: Option<string>,
                            extra: map<string, Value>): (e: Effect<UserId>)
    ensures t.Valid() ==> e.tables.Valid()
    ensures email == "" ==> e == Effect(t, Failure(ValueError(EmailRequired)))
    ensures email != "" ==>
      (e.result.Failure? <==> exists k :: k in t.users && t.users[k].email == normalize(email))
    ensures e.result.Failure? ==> e.tables == t
    ensures e.result.Success? ==>
      && e.result.value == t.nextUserId
      && e.tables == t.(users := t.users[t.nextUserId := User(normalize(email), SetPassword(password), "", "", "", extra)],
                        nextUserId := t.nextUserId + 1)
    ensures t.Valid() && e.result.Success? ==> e.result.value !in t.users
  {
    if email == "" then Effect(t, Failure(ValueError(EmailRequired)))
    else t.InsertUser(User(normalize(email), SetPassword(password), "", "", "", extra))
  }

  /**
   * `create_user`. The caller's keyword arguments are collected into `extra`,
   * which therefore never holds `email` or `password`.
   */
  method CreateUser(db: Database, normalize: string -> string, email: string, password: Option<string>,
                    extra: map<string, Value>) returns (r: Result<UserId, Error>)
    requires db.Valid() && "email" !in extra && "password" !in extra
    modifies db
    ensures db.Valid()
    ensures Effect(db.Snapshot(), r) == CreateUserEffect(old(db.Snapshot()), normalize, email, password, extra)
  {
    if email == "" {
      return Failure(ValueError(EmailRequired));
    }
    var normalized := normalize(email);
    var user := User(normalized, Unusable, "", "", "", extra);
    user := user.(password := SetPassword(password));
    r := db.SaveNewUser(user);
  }

  /** `create_superuser`: `extra_fields` is updated in place, then handed to `create_user`. */
  method CreateSuperuser(db: Database, normalize: string -> string, email: string, password: Option<string>,
                         extra: map<string, Value>) returns (r: Result<UserId, Error>)
    requires db.Valid() && "email" !in extra && "password" !in extra
    modifies db
    ensures db.Valid()
    ensures Effect(db.Snapshot(), r)
         == CreateUserEffect(old(db.Snapshot()), normalize, email, password, SuperuserFields(extra))
  {
    var fields := extra;
    fields := SetDefault(fields, "is_staff", BoolValue(true));
    fields := SetDefault(fields, "is_superuser", BoolValue(true));
    r := CreateUser(db, normalize, email, password, fields);
  }

  /**
   * A superuser created without explicit flags is staff and superuser, and
   * one created with an empty email is refused before anything is saved.
   */
  lemma SuperuserDefaults(t: Tables, normalize: string -> string, email: string, password: Option<string>,
                          extra: map<string, Value>)
    requires t.Valid() && "is_staff" !in extra && "is_superuser" !in extra
    ensures var e := CreateUserEffect(t, normalize, email, password, SuperuserFields(extra));
      e.result.Success? ==>
        && e.tables.users[e.result.value].fields["is_staff"] == BoolValue(true)
        && e.tables.users[e.result.value].fields["is_superuser"] == BoolValue(true)
        && e.tables.users[e.result.value].password == SetPassword(password)
  {
  }
}
