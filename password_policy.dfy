/**
 * The password policy of `UserManager.validate_password`: a length window,
 * a deny list of character classes that is empty, and a need list of three
 * character classes (letter, digit, special) checked in that order. The
 * first rule that fails is the reason reported.
 */
module PasswordPolicy {
  import opened Wrappers

  const MinPasswordLength: nat := 10
  const MaxPasswordLength: nat := 30

  /** The three one-class regular expressions of the need list. */
  datatype CharClass = Letter | Digit | Special

  /** The members of the bracket expression of the third pattern. */
  const SpecialChars: string := "{}[]/?.,;:|)*~`!^-_+<>@#$%&\\=('\""

  predicate InClass(cls: CharClass, c: char) {
    match cls
    case Letter => 'a' <= c <= 'z' || 'A' <= c <= 'Z'
    case Digit => '0' <= c <= '9'
    case Special => c in SpecialChars
  }

  /** Some character of `s` belongs to `cls`. */
  ghost predicate Contains(cls: CharClass, s: string) {
    exists i :: 0 <= i < |s| && InClass(cls, s[i])
  }

  /** `pattern.search(s)` for the pattern of `cls`: a left-to-right scan. */
  function Search(cls: CharClass, s: string): (found: bool)
    ensures found <==> Contains(cls, s)
  {
    if s == [] then false
    else if InClass(cls, s[0]) then true
    else
      var rest := Search(cls, s[1..]);
      assert Contains(cls, s[1..]) ==> Contains(cls, s) by {
        if Contains(cls, s[1..]) {
          var i :| 0 <= i < |s[1..]| && InClass(cls, s[1..][i]);
          assert InClass(cls, s[i + 1]);
        }
      }
      rest
  }

  /**
   * The policy attributes of `UserManager`: the length window and the two
   * pattern lists.
   */
  datatype Policy = Policy(minLength: nat, maxLength: nat, need: seq<CharClass>, deny: seq<CharClass>)

  const UserManagerPolicy: Policy := Policy(10, 30, [Letter, Digit, Special], [])

  /**
   * The early-exit loops over a pattern list: the index of the first pattern
   * whose search result is `matched`, if there is one.
   */
  function FirstWhere(patterns: seq<CharClass>, s: string, matched: bool): (r: Option<nat>)
    ensures r.Some? ==> r.value < |patterns| && Search(patterns[r.value], s) == matched
    ensures r.Some? ==> forall j :: 0 <= j < r.value ==> Search(patterns[j], s) != matched
    ensures r.None? <==> forall j :: 0 <= j < |patterns| ==> Search(patterns[j], s) != matched
  {
    if patterns == [] then None
    else if Search(patterns[0], s) == matched then Some(0)
    else
      var rest := FirstWhere(patterns[1..], s, matched);
      assert forall j :: 1 <= j < |patterns| ==> patterns[j] == patterns[1..][j - 1];
      if rest.None? then None else Some(rest.value + 1)
  }

  datatype Reason =
    | TooShort(minLength: nat)
    | TooLong(maxLength: nat)
    | Forbidden(denied: CharClass)
    | Missing(needed: CharClass)

  datatype Verdict = Accepted | Rejected(reason: Reason)

  predicate LengthInBounds(policy: Policy, password: string) {
    policy.minLength <= |password| <= policy.maxLength
  }

  /** No class of the deny list occurs in the password. */
  ghost predicate AvoidsDenied(policy: Policy, password: string) {
    forall k :: 0 <= k < |policy.deny| ==> !Contains(policy.deny[k], password)
  }

  /** Every class of the need list occurs in the password. */
  ghost predicate HasNeeded(policy: Policy, password: string) {
    forall k :: 0 <= k < |policy.need| ==> Contains(policy.need[k], password)
  }

  /**
   * `validate_password`: the length window first, then the deny list, then
   * the need list, each list in order; the first failing rule is reported.
   * The `user` argument of the source is never consulted, so it is not a
   * parameter here.
   */
  function Validate(policy: Policy, password: string): (v: Verdict)
    ensures v == Rejected(TooShort(policy.minLength)) <==> |password| < policy.minLength
    ensures v == Rejected(TooLong(policy.maxLength))
        <==> policy.minLength <= |password| && |password| > policy.maxLength
    ensures v.Rejected? && v.reason.TooShort? ==> v == Rejected(TooShort(policy.minLength))
    ensures v.Rejected? && v.reason.TooLong? ==> v == Rejected(TooLong(policy.maxLength))
    ensures v.Accepted?
        <==> LengthInBounds(policy, password) && AvoidsDenied(policy, password) && HasNeeded(policy, password)
    ensures v.Rejected? && v.reason.Forbidden? ==>
        LengthInBounds(policy, password)
        && exists k :: 0 <= k < |policy.deny| && policy.deny[k] == v.reason.denied && Contains(v.reason.denied, password)
                       && forall j :: 0 <= j < k ==> !Contains(policy.deny[j], password)
    ensures v.Rejected? && v.reason.Missing? ==>
        LengthInBounds(policy, password) && AvoidsDenied(policy, password)
        && exists k :: 0 <= k < |policy.need| && policy.need[k] == v.reason.needed
                       && !Contains(v.reason.needed, password)
                       && forall j :: 0 <= j < k ==> Contains(policy.need[j], password)
  {
    if |password| < policy.minLength then Rejected(TooShort(policy.minLength))
    else if |password| > policy.maxLength then Rejected(TooLong(policy.maxLength))
    else match FirstWhere(policy.deny, password, true)
      case Some(k) => Rejected(Forbidden(policy.deny[k]))
      case None =>
        match FirstWhere(policy.need, password, false)
        case Some(k) => Rejected(Missing(policy.need[k]))
        case None => Accepted
  }

  /** The password check of `UserManager`. */
  function ValidatePassword(password: string): Verdict {
    Validate(UserManagerPolicy, password)
  }

  /** Any password shorter than 10 characters is rejected as too short, whatever it contains. */
  lemma ShortRejected(password: string)
    requires |password| < 10
    ensures ValidatePassword(password) == Rejected(TooShort(10))
  {
  }

  /** Any password longer than 30 characters is rejected as too long. */
  lemma LongRejected(password: string)
    requires |password| > 30
    ensures ValidatePassword(password) == Rejected(TooLong(30))
  {
  }

  /** Accepted exactly when the length is 10 to 30 and there is a letter, a digit and a special character. */
  lemma AcceptedIff(password: string)
    ensures ValidatePassword(password).Accepted?
        <==> 10 <= |password| <= 30
             && Contains(Letter, password) && Contains(Digit, password) && Contains(Special, password)
  {
    var p := UserManagerPolicy;
    if HasNeeded(p, password) {
      assert Contains(p.need[0], password) && Contains(p.need[1], password) && Contains(p.need[2], password);
    }
    if Contains(Letter, password) && Contains(Digit, password) && Contains(Special, password) {
      forall k | 0 <= k < |p.need| ensures Contains(p.need[k], password) {
        assert p.need[k] in {Letter, Digit, Special};
      }
    }
  }

  /** The reason for a missing class names the first absent class in the order letter, digit, special. */
  lemma MissingNamesFirstAbsentClass(password: string)
    ensures ValidatePassword(password) == Rejected(Missing(Letter))
        <==> 10 <= |password| <= 30 && !Contains(Letter, password)
    ensures ValidatePassword(password) == Rejected(Missing(Digit))
        <==> 10 <= |password| <= 30 && Contains(Letter, password) && !Contains(Digit, password)
    ensures ValidatePassword(password) == Rejected(Missing(Special))
        <==> 10 <= |password| <= 30 && Contains(Letter, password) && Contains(Digit, password)
             && !Contains(Special, password)
  {
    var p := UserManagerPolicy;
    var v := ValidatePassword(password);
    if 10 <= |password| <= 30 {
      var first := FirstWhere(p.need, password, false);
      assert FirstWhere(p.deny, password, true).None?;
      match first {
        case None =>
          assert Search(p.need[0], password) && Search(p.need[1], password) && Search(p.need[2], password);
        case Some(k) =>
          assert v == Rejected(Missing(p.need[k]));
          if k == 0 {
            assert !Contains(Letter, password);
          } else if k == 1 {
            assert Contains(p.need[0], password) && !Contains(Digit, password);
          } else {
            assert Contains(p.need[0], password) && Contains(p.need[1], password) && !Contains(Special, password);
          }
      }
    }
  }

  /** The deny list is empty, so no password is ever rejected as forbidden. */
  lemma NeverForbidden(password: string)
    ensures !(ValidatePassword(password).Rejected? && ValidatePassword(password).reason.Forbidden?)
  {
  }

  /** The 10-character password of the registration test is accepted. */
  lemma ShortestTestPasswordAccepted()
    ensures ValidatePassword("chantaje@1") == Accepted
  {
    var pw := "chantaje@1";
    assert InClass(Letter, pw[0]) && InClass(Special, pw[8]) && InClass(Digit, pw[9]);
    AcceptedIff(pw);
  }

  /** A password of letters only is rejected for its missing digit, not its missing special character. */
  lemma LettersOnlyMissesDigit()
    ensures ValidatePassword("onlyletters") == Rejected(Missing(Digit))
  {
    var pw := "onlyletters";
    assert InClass(Letter, pw[0]);
    assert !Contains(Digit, pw) by {
      forall i | 0 <= i < |pw| ensures !InClass(Digit, pw[i]) { }
    }
    MissingNamesFirstAbsentClass(pw);
  }
}
