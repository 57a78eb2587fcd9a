/** The due-date strategy chosen when a loan policy's profile is not recognised:
    it never yields a due date, only a validation failure naming the profile. */
module UnknownDueDates {
  import opened Results
  import opened Formatting
  import Loans

  /** The two message templates, written as the text before and after their one "%s". */
  const CHECK_OUT_PREFIX := "Item can't be checked out as profile \""
  const RENEWAL_PREFIX := "Item can't be renewed as profile \""
  const PROFILE_SUFFIX := "\" in the loan policy is not recognised."

  const CHECK_OUT_UNRECOGNISED_PROFILE_MESSAGE := CHECK_OUT_PREFIX + "%s" + PROFILE_SUFFIX
  const RENEWAL_UNRECOGNISED_PROFILE_MESSAGE := RENEWAL_PREFIX + "%s" + PROFILE_SUFFIX

  /** A point in time, as milliseconds since the epoch. */
  type DateTime = int

  datatype UnknownDueDateStrategy = UnknownDueDateStrategy(
    loanPolicyId: Option<string>,
    loanPolicyName: Option<string>,
    profileId: Option<string>,
    isRenewal: bool)

  /** The check-out message: the template's text around "%s", with the profile id between. */
  function CheckOutMessage(profileId: Option<string>): (m: string)
    ensures m == CHECK_OUT_PREFIX + Render(profileId) + PROFILE_SUFFIX
  {
    FormatOneSplices(CHECK_OUT_PREFIX, PROFILE_SUFFIX, Render(profileId));
    FormatOne(CHECK_OUT_UNRECOGNISED_PROFILE_MESSAGE, Render(profileId))
  }

  /** The renewal message: the template's text around "%s", with the profile id between. */
  function RenewalMessage(profileId: Option<string>): (m: string)
    ensures m == RENEWAL_PREFIX + Render(profileId) + PROFILE_SUFFIX
  {
    FormatOneSplices(RENEWAL_PREFIX, PROFILE_SUFFIX, Render(profileId));
    FormatOne(RENEWAL_UNRECOGNISED_PROFILE_MESSAGE, Render(profileId))
  }

  /** Always a validation failure; renewals and check-outs get their own wording. */
  function CalculateDueDate(strategy: UnknownDueDateStrategy, loan: Loans.Loan, systemDate: DateTime): (r: Result<DateTime, Failure>)
    ensures r.Failure? && r.error.ValidationError?
    ensures strategy.isRenewal ==> r.error.message == RenewalMessage(strategy.profileId)
    ensures !strategy.isRenewal ==> r.error.message == CheckOutMessage(strategy.profileId)
  {
    if strategy.isRenewal then
      Failure(ValidationError(FormatOne(RENEWAL_UNRECOGNISED_PROFILE_MESSAGE, Render(strategy.profileId))))
    else
      Failure(ValidationError(FormatOne(CHECK_OUT_UNRECOGNISED_PROFILE_MESSAGE, Render(strategy.profileId))))
  }

  /** Neither the loan nor the system date has any bearing on the outcome. */
  lemma OutcomeIgnoresLoanAndDate(strategy: UnknownDueDateStrategy, loan1: Loans.Loan, date1: DateTime, loan2: Loans.Loan, date2: DateTime)
    ensures CalculateDueDate(strategy, loan1, date1) == CalculateDueDate(strategy, loan2, date2)
  {
  }

  /** For the same profile id, the check-out and renewal messages differ. */
  lemma MessagesDiffer(profileId: Option<string>)
    ensures CheckOutMessage(profileId) != RenewalMessage(profileId)
  {
  }

  /** The message names the profile: equal messages of one kind mean equal rendered profile ids. */
  lemma {:induction false} CheckOutMessageNamesProfile(a: Option<string>, b: Option<string>)
    requires CheckOutMessage(a) == CheckOutMessage(b)
    ensures Render(a) == Render(b)
  {
    var pre := CHECK_OUT_PREFIX;
    var post := PROFILE_SUFFIX;
    var ma := CheckOutMessage(a);
    assert |Render(a)| == |Render(b)|;
    assert Render(a) == ma[|pre|..|ma| - |post|];
  }

  lemma {:induction false} RenewalMessageNamesProfile(a: Option<string>, b: Option<string>)
    requires RenewalMessage(a) == RenewalMessage(b)
    ensures Render(a) == Render(b)
  {
    var pre := RENEWAL_PREFIX;
    var post := PROFILE_SUFFIX;
    var ma := RenewalMessage(a);
    assert |Render(a)| == |Render(b)|;
    assert Render(a) == ma[|pre|..|ma| - |post|];
  }

  /** An absent profile id reads as the text "null", as Java's String.format writes it. */
  lemma AbsentProfileReadsAsNull()
    ensures CheckOutMessage(None) == CheckOutMessage(Some("null"))
    ensures RenewalMessage(None) == RenewalMessage(Some("null"))
  {
  }
}
