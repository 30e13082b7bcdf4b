/**
 * The life of one account after registration: any sequence of the operations
 * that change it (renaming, setting the age, promotion). The lemmas state what
 * such a sequence can and cannot change: the email address and the password
 * stay fixed, the tier only moves from Standard to Premium, and an age once set
 * never becomes absent again.
 */
module Lifecycle {
  import opened Wrappers
  import opened UserCore

  /** One operation that yields a changed account. */
  datatype Op =
    | Rename(newName: string)
    | SetAge(newAge: Int32)
    | Promote

  /** The account after one operation. */
  function Apply(u: User, op: Op): User
  {
    match op
    case Rename(n) => WithName(u, n)
    case SetAge(a) => WithAge(u, a)
    case Promote => UpdateToPremium(u)
  }

  /** The account after the operations, applied first to last. */
  function Run(u: User, ops: seq<Op>): User
    decreases |ops|
  {
    if ops == [] then u else Run(Apply(u, ops[0]), ops[1..])
  }

  /** Whether the sequence sets the age at some point. */
  predicate SetsAge(ops: seq<Op>)
  {
    exists i :: 0 <= i < |ops| && ops[i].SetAge?
  }

  /** No sequence of operations changes the email address or the password. */
  lemma {:induction false} RunKeepsCredentials(u: User, ops: seq<Op>)
    ensures EmailAddress(Run(u, ops)) == EmailAddress(u)
    ensures Details(Run(u, ops)).password == Details(u).password
    decreases |ops|
  {
    if ops != [] {
      RunKeepsCredentials(Apply(u, ops[0]), ops[1..]);
    }
  }

  /** Hence the password check answers the same before and after any sequence of operations. */
  lemma {:induction false} RunKeepsPasswordCheck(u: User, ops: seq<Op>, password: string)
    ensures VerifyPassword(Run(u, ops), password) == VerifyPassword(u, password)
  {
    RunKeepsCredentials(u, ops);
  }

  /**
   * The tier is one-way: the account ends premium exactly when it started
   * premium or the sequence promotes it.
   */
  lemma {:induction false} RunTier(u: User, ops: seq<Op>)
    ensures Run(u, ops).Premium? <==> u.Premium? || Promote in ops
    decreases |ops|
  {
    if ops != [] {
      RunTier(Apply(u, ops[0]), ops[1..]);
      assert ops == [ops[0]] + ops[1..];
      assert Promote in ops <==> ops[0] == Promote || Promote in ops[1..];
    }
  }

  /**
   * An account that started standard, or premium with its flag set, never
   * ends premium with its flag cleared.
   */
  lemma {:induction false} RunKeepsPremiumFlag(u: User, ops: seq<Op>)
    requires u.Premium? ==> u.isPremium
    ensures Run(u, ops).Premium? ==> Run(u, ops).isPremium
    decreases |ops|
  {
    if ops != [] {
      RunKeepsPremiumFlag(Apply(u, ops[0]), ops[1..]);
    }
  }

  /** The age is absent at the end exactly when it was absent at the start and nothing set it. */
  lemma {:induction false} RunAgeAbsent(u: User, ops: seq<Op>)
    ensures GetAge(Run(u, ops)).None? <==> GetAge(u).None? && !SetsAge(ops)
    decreases |ops|
  {
    if ops != [] {
      RunAgeAbsent(Apply(u, ops[0]), ops[1..]);
      if SetsAge(ops[1..]) {
        var i :| 0 <= i < |ops[1..]| && ops[1..][i].SetAge?;
        assert ops[i + 1].SetAge?;
      }
      if SetsAge(ops) && !ops[0].SetAge? {
        var i :| 0 <= i < |ops| && ops[i].SetAge?;
        assert ops[1..][i - 1].SetAge?;
      }
    }
  }

  /** A sequence that never renames leaves the name as it was. */
  lemma {:induction false} RunWithoutRenameKeepsName(u: User, ops: seq<Op>)
    requires forall i :: 0 <= i < |ops| ==> !ops[i].Rename?
    ensures Details(Run(u, ops)).name == Details(u).name
    decreases |ops|
  {
    if ops != [] {
      RunWithoutRenameKeepsName(Apply(u, ops[0]), ops[1..]);
    }
  }

  /**
   * Registration of Ann at a@x.com with password p1, then promotion: the
   * account is premium with its flag set, keeps its email, name and password,
   * has no age, accepts p1 and refuses anything else.
   */
  lemma RegisterThenPromote(other: string)
    requires other != "p1"
    ensures var u := UpdateToPremium(New("a@x.com", "Ann", "p1"));
      && u.Premium? && u.isPremium
      && EmailAddress(u) == "a@x.com"
      && Details(u).name == "Ann"
      && GetAge(u) == None
      && VerifyPassword(u, "p1") == Ok(())
      && VerifyPassword(u, other) == Err(())
  {
  }
}
