/**
 * The `user` record and its schemas: a name of 4 to 20 characters, a
 * hashed password of at most 1024 characters, and the three account flags
 * with their defaults. Building a record validates all of it.
 */
module UserModel {
  import opened Wrappers

  const MinNameLength: nat := 4
  const MaxNameLength: nat := 20
  const MaxHashedPasswordLength: nat := 1024

  predicate ValidName(name: string) {
    MinNameLength <= |name| <= MaxNameLength
  }

  /** The errors the name constraint reports; the minimum is checked before the maximum. */
  datatype NameError = NameMissing | NameTooShort(minLength: nat) | NameTooLong(maxLength: nat)

  /**
   * The `name` field as the record and the read, create and update schemas
   * all declare it: required, with the same length bounds.
   */
  function CheckName(name: Option<string>): (r: Result<string, NameError>)
    ensures r.Ok? <==> name.Some? && ValidName(name.value)
    ensures r.Ok? ==> r.value == name.value
    ensures r == Err(NameMissing) <==> name.None?
    ensures r == Err(NameTooShort(MinNameLength)) <==> name.Some? && |name.value| < MinNameLength
    ensures r == Err(NameTooLong(MaxNameLength)) <==> name.Some? && |name.value| > MaxNameLength
  {
    match name
    case None => Err(NameMissing)
    case Some(n) =>
      if |n| < MinNameLength then Err(NameTooShort(MinNameLength))
      else if |n| > MaxNameLength then Err(NameTooLong(MaxNameLength))
      else Ok(n)
  }

  /** A stored account. The id and the two timestamps are left to the storage layer. */
  datatype User = User(
    name: string,
    hashedPassword: string,
    email: string,
    isActive: bool,
    isSuperuser: bool,
    isVerified: bool)

  predicate ValidUser(u: User) {
    ValidName(u.name) && |u.hashedPassword| <= MaxHashedPasswordLength
  }

  /** The keyword arguments a `user` is constructed from; absent ones are None. */
  datatype UserFields = UserFields(
    name: Option<string>,
    hashedPassword: Option<string>,
    email: Option<string>,
    isActive: Option<bool>,
    isSuperuser: Option<bool>,
    isVerified: Option<bool>)

  datatype UserField = NameField | HashedPasswordField | EmailField

  function NameErrors(f: UserFields): set<UserField> {
    if CheckName(f.name).Ok? then {} else {NameField}
  }

  function HashedPasswordErrors(f: UserFields): set<UserField> {
    match f.hashedPassword
    case None => {HashedPasswordField}
    case Some(h) => if |h| <= MaxHashedPasswordLength then {} else {HashedPasswordField}
  }

  function EmailErrors(f: UserFields): set<UserField> {
    if f.email.Some? then {} else {EmailField}
  }

  /**
   * `user(**fields)`, whose constructor re-validates the record: either a
   * valid record carrying the given values with the flag defaults filled in,
   * or the set of every field that failed.
   */
  function NewUser(f: UserFields): (r: Result<User, set<UserField>>)
    ensures r.Ok? ==> ValidUser(r.value)
    ensures r.Ok? <==>
      && f.name.Some? && ValidName(f.name.value)
      && f.hashedPassword.Some? && |f.hashedPassword.value| <= MaxHashedPasswordLength
      && f.email.Some?
    ensures r.Ok? ==>
      && r.value.name == f.name.value
      && r.value.hashedPassword == f.hashedPassword.value
      && r.value.email == f.email.value
    ensures r.Ok? ==>
      && r.value.isActive == (f.isActive.None? || f.isActive.value)
      && r.value.isSuperuser == (f.isSuperuser.Some? && f.isSuperuser.value)
      && r.value.isVerified == (f.isVerified.Some? && f.isVerified.value)
    ensures r.Err? ==>
      && r.error != {}
      && (NameField in r.error <==> !(f.name.Some? && ValidName(f.name.value)))
      && (HashedPasswordField in r.error <==>
            !(f.hashedPassword.Some? && |f.hashedPassword.value| <= MaxHashedPasswordLength))
      && (EmailField in r.error <==> f.email.None?)
  {
    var errors := NameErrors(f) + HashedPasswordErrors(f) + EmailErrors(f);
    if errors != {} then Err(errors)
    else Ok(User(
      f.name.value, f.hashedPassword.value, f.email.value,
      f.isActive.GetOr(true), f.isSuperuser.GetOr(false), f.isVerified.GetOr(false)))
  }

  /** A new account with no flags given is active, not a superuser and not verified. */
  lemma NewUserDefaults(name: string, hashedPassword: string, email: string)
    requires ValidName(name) && |hashedPassword| <= MaxHashedPasswordLength
    ensures NewUser(UserFields(Some(name), Some(hashedPassword), Some(email), None, None, None))
         == Ok(User(name, hashedPassword, email, true, false, false))
  {
  }

  /**
   * Constructing a record from a complete set of values succeeds exactly when
   * the record is valid, keeps every value, and otherwise names exactly the
   * fields that broke a constraint.
   */
  lemma NewUserIffValid(u: User)
    ensures NewUser(UserFields(Some(u.name), Some(u.hashedPassword), Some(u.email),
                               Some(u.isActive), Some(u.isSuperuser), Some(u.isVerified))) == Ok(u)
        <==> ValidUser(u)
    ensures var r := NewUser(UserFields(Some(u.name), Some(u.hashedPassword), Some(u.email),
                                        Some(u.isActive), Some(u.isSuperuser), Some(u.isVerified)));
      r.Err? ==>
        && (NameField in r.error <==> !ValidName(u.name))
        && (HashedPasswordField in r.error <==> |u.hashedPassword| > MaxHashedPasswordLength)
        && EmailField !in r.error
  {
    var f := UserFields(Some(u.name), Some(u.hashedPassword), Some(u.email),
                        Some(u.isActive), Some(u.isSuperuser), Some(u.isVerified));
    if ValidUser(u) {
      assert f.isActive.GetOr(true) == u.isActive;
      assert f.isSuperuser.GetOr(false) == u.isSuperuser && f.isVerified.GetOr(false) == u.isVerified;
    }
  }

  /** The registration test's names: too short, too long, and accepted. */
  lemma RegistrationNameExamples()
    ensures CheckName(Some("sha")) == Err(NameTooShort(4))
    ensures CheckName(Some("ab")) == Err(NameTooShort(4))
    ensures CheckName(Some("shafasdfsdwerewfsdfxcvxcvxcv")) == Err(NameTooLong(20))
    ensures CheckName(Some("shakirashakira")) == Ok("shakirashakira")
    ensures CheckName(Some("shakira@#$%^<>")).Ok?
  {
  }
}
