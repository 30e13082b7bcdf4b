/**
 * The user account entity: its details record, its two tiers (Standard and
 * Premium) and the operations on it. Reading operations, the tier promotion
 * (which consumes the old value) and the password check are functions over the
 * datatype; the two in-place updates are methods of `UserCell`, a mutable
 * binding that holds one `User` value.
 */
module UserCore {
  import opened Wrappers

  /** A signed 32-bit integer, the type of the age field. */
  newtype Int32 = x: int | -0x8000_0000 <= x <= 0x7fff_ffff

  /** The fields every account has, whatever its tier. */
  datatype UserDetails = UserDetails(
    emailAddress: string,
    password: string,
    age: Option<Int32>,
    name: string)

  /** An account: a standard one, or a premium one with its own premium flag. */
  datatype User =
    | Standard(userDetails: UserDetails)
    | Premium(userDetails: UserDetails, isPremium: bool)

  /** The details of an account, read the same way for both tiers. */
  function Details(u: User): UserDetails
  {
    match u
    case Standard(d) => d
    case Premium(d, _) => d
  }

  /** Two accounts are of the same tier and, when premium, carry the same flag. */
  predicate SameTier(u: User, v: User)
  {
    u.Standard? == v.Standard? && (u.Premium? ==> u.isPremium == v.isPremium)
  }

  /** Registration: a standard account with the given email, name and password and no age. */
  function New(emailAddress: string, name: string, password: string): (u: User)
    ensures u.Standard?
    ensures Details(u).emailAddress == emailAddress
    ensures Details(u).name == name
    ensures Details(u).password == password
    ensures Details(u).age == None
  {
    Standard(UserDetails(emailAddress, password, None, name))
  }

  /** Whatever the tier, `Details` yields the record the account wraps. */
  lemma DetailsOfEitherTier(d: UserDetails, flag: bool)
    ensures Details(Standard(d)) == d
    ensures Details(Premium(d, flag)) == d
  {
  }

  /** The account's email address. */
  function EmailAddress(u: User): (e: string)
    ensures e == Details(u).emailAddress
  {
    match u
    case Standard(d) => d.emailAddress
    case Premium(d, _) => d.emailAddress
  }

  /** A freshly registered account answers with the email it was registered under. */
  lemma NewEmailAddress(emailAddress: string, name: string, password: string)
    ensures EmailAddress(New(emailAddress, name, password)) == emailAddress
  {
  }

  /** The account's age, absent until it has been set. */
  function GetAge(u: User): (a: Option<Int32>)
    ensures a == Details(u).age
  {
    match u
    case Standard(d) => d.age
    case Premium(d, _) => d.age
  }

  /** The account with its name replaced: the value `UpdateName` leaves behind. */
  function WithName(u: User, newName: string): (r: User)
    ensures Details(r) == Details(u).(name := newName)
    ensures SameTier(r, u)
  {
    match u
    case Standard(d) => Standard(d.(name := newName))
    case Premium(d, flag) => Premium(d.(name := newName), flag)
  }

  /** The account with its age set: the value `UpdateAge` leaves behind. */
  function WithAge(u: User, newAge: Int32): (r: User)
    ensures Details(r) == Details(u).(age := Some(newAge))
    ensures GetAge(r) == Some(newAge)
    ensures SameTier(r, u)
  {
    match u
    case Standard(d) => Standard(d.(age := Some(newAge)))
    case Premium(d, flag) => Premium(d.(age := Some(newAge)), flag)
  }

  /**
   * Promotion to the premium tier. It consumes the account and returns a new
   * one: a standard account becomes premium with its flag set and its details
   * kept; a premium account comes back as it was, whatever its flag says.
   */
  function UpdateToPremium(u: User): (r: User)
    ensures r.Premium?
    ensures Details(r) == Details(u)
    ensures u.Standard? ==> r.isPremium
    ensures u.Premium? ==> r == u
  {
    match u
    case Standard(d) => Premium(d, true)
    case Premium(_, _) => u
  }

  /** Promoting twice is the same as promoting once. */
  lemma UpdateToPremiumIdempotent(u: User)
    ensures UpdateToPremium(UpdateToPremium(u)) == UpdateToPremium(u)
  {
  }

  /** The password check: `Ok` exactly when the candidate equals the stored password. */
  function VerifyPassword(u: User, password: string): (r: Result<(), ()>)
    ensures r.Ok? <==> password == Details(u).password
    ensures r.Err? <==> password != Details(u).password
  {
    var stored := match u
      case Standard(d) => d.password
      case Premium(d, _) => d.password;
    if stored == password then Ok(()) else Err(())
  }

  /**
   * The check is exact: a candidate that differs from the stored password in
   * one character, or by one trailing character, is refused.
   */
  lemma VerifyPasswordIsExact(u: User, password: string, c: char)
    requires password == Details(u).password
    ensures VerifyPassword(u, password).Ok?
    ensures VerifyPassword(u, password + [c]).Err?
    ensures |password| > 0 && c != password[0] ==> VerifyPassword(u, [c] + password[1..]).Err?
  {
  }

  /** A mutable binding of one account, updated in place by `UpdateName` and `UpdateAge`. */
  class UserCell {
    var user: User

    /** Registers a new account and binds it. */
    constructor (emailAddress: string, name: string, password: string)
      ensures user == New(emailAddress, name, password)
    {
      user := New(emailAddress, name, password);
    }

    /** Overwrites the name in place; any string, the empty one included, is accepted. */
    method UpdateName(newName: string)
      modifies this
      ensures user == WithName(old(user), newName)
      ensures Details(user).name == newName
      ensures EmailAddress(user) == EmailAddress(old(user))
      ensures Details(user).password == Details(old(user)).password
      ensures GetAge(user) == GetAge(old(user))
      ensures SameTier(user, old(user))
    {
      match user
      case Standard(d) =>
        user := Standard(d.(name := newName));
      case Premium(d, flag) =>
        user := Premium(d.(name := newName), flag);
    }

    /** Sets the age in place; every 32-bit value, negative ones included, is accepted. */
    method UpdateAge(newAge: Int32)
      modifies this
      ensures user == WithAge(old(user), newAge)
      ensures GetAge(user) == Some(newAge)
      ensures EmailAddress(user) == EmailAddress(old(user))
      ensures Details(user).password == Details(old(user)).password
      ensures Details(user).name == Details(old(user)).name
      ensures SameTier(user, old(user))
    {
      match user
      case Standard(d) =>
        user := Standard(d.(age := Some(newAge)));
      case Premium(d, flag) =>
        user := Premium(d.(age := Some(newAge)), flag);
    }
  }
}
