/** The field rules the four step forms of the order wizard declare
    (src/components/OrderFormSteps.tsx), the service checkbox toggle and the
    scale-to-budget effect. A rule says when a field's value passes. */
module OrderFormSteps {
  import opened Text
  import opened Patterns
  import opened OrderTypes
  import Utils
  import UtilsIndex

  /** `required` on a text input: the empty string counts as missing. */
  predicate Required(v: string) { v != "" }

  /** `minLength: n`: checked only once there is a value. */
  predicate MinLength(v: string, n: nat) { v == "" || |v| >= n }

  // ----- /^\d{3}-?\d{2}-?\d{5}$/ -----

  /** `/^\d{3}-?\d{2}-?\d{5}$/.test(s)`. */
  predicate BusinessNumberPattern(s: string) {
    && |s| >= 3 && AllDigits(s[..3])
    && var u := SkipDash(s[3..]);
       && |u| >= 2 && AllDigits(u[..2])
       && var w := SkipDash(u[2..]);
          |w| == 5 && AllDigits(w)
  }

  /** Dropping a leading dash drops no digit. */
  lemma DigitsOnlySkipDash(t: string)
    ensures DigitsOnly(SkipDash(t)) == DigitsOnly(t)
  {
  }

  /** Digits followed by more text: the digits come first in `DigitsOnly`. */
  lemma DigitsOnlyDigitPrefix(s: string, k: nat)
    requires k <= |s| && AllDigits(s[..k])
    ensures DigitsOnly(s) == s[..k] + DigitsOnly(s[k..])
  {
    assert s == s[..k] + s[k..];
    DigitsOnlyConcat(s[..k], s[k..]);
  }

  /** A value that passes the pattern has ten digits, and `formatBusinessNumber`
      turns it into the dashed form `src/utils.ts` validates. */
  lemma BusinessNumberPatternHasTenDigits(s: string)
    requires BusinessNumberPattern(s)
    ensures |DigitsOnly(s)| == 10
    ensures Utils.ValidateBusinessNumber(UtilsIndex.FormatBusinessNumber(s))
  {
    PatternDigits(s);
    UtilsIndex.FormatBusinessNumberValidates(s);
  }

  /** The digits of a matching value are its three groups, in order. */
  lemma PatternDigits(s: string)
    requires BusinessNumberPattern(s)
    ensures var u := SkipDash(s[3..]);
      DigitsOnly(s) == s[..3] + u[..2] + SkipDash(u[2..])
  {
    var u := SkipDash(s[3..]);
    GroupDigits(s, 3);
    GroupDigits(u, 2);
  }

  /** A group of digits and an optional dash: the digits of the group come first. */
  lemma GroupDigits(t: string, k: nat)
    requires k <= |t| && AllDigits(t[..k])
    ensures DigitsOnly(t) == t[..k] + DigitsOnly(SkipDash(t[k..]))
  {
    DigitsOnlyDigitPrefix(t, k);
    DigitsOnlySkipDash(t[k..]);
  }

  /** Both written forms of a number pass: the dashed 3-2-5 form and ten bare digits. */
  lemma BusinessNumberPatternAcceptsBothForms(s: string)
    requires Utils.ValidateBusinessNumber(s) || (|s| == 10 && AllDigits(s))
    ensures BusinessNumberPattern(s)
  {
    if Utils.ValidateBusinessNumber(s) {
      assert SkipDash(s[3..]) == s[4..];
      assert s[4..][..2] == s[4..6];
      assert SkipDash(s[4..][2..]) == s[7..];
    } else {
      assert SkipDash(s[3..]) == s[3..];
      assert s[3..][..2] == s[3..5];
      assert SkipDash(s[3..][2..]) == s[5..];
    }
  }

  // ----- the fields and their rules -----

  /** The fields registered with rules, as `section.field`. */
  datatype Field =
    | CompanyName | ContactPerson | Phone | Email | Address | BusinessNumber
    | ServiceTypes | ProjectScale | ExpectedCompletion | Description
    | DetailedDescription
    | PrivacyPolicy | TermsOfService

  /** What the completion-date rule needs beyond the form: `new Date(value)` as an
      instant in milliseconds (`None` for an invalid date) and the instant of today's
      local midnight. */
  datatype Clock = Clock(parsedCompletion: Option<int>, todayMidnight: int)

  /** `required` plus `selectedDate > today`; an invalid date compares false. */
  predicate CompletionValid(v: string, clock: Clock) {
    Required(v) && clock.parsedCompletion.Some? && clock.parsedCompletion.value > clock.todayMidnight
  }

  /** Whether field `f` passes its declared rule; `required` on a checkbox asks for `true`. */
  predicate FieldValid(f: Field, data: OrderFormData, clock: Clock) {
    match f
    case CompanyName => Required(data.customer.companyName) && MinLength(data.customer.companyName, 2)
    case ContactPerson => Required(data.customer.contactPerson) && MinLength(data.customer.contactPerson, 2)
    case Phone => Required(data.customer.phone) && MobilePattern(data.customer.phone)
    case Email => Required(data.customer.email) && EmailPattern(data.customer.email)
    case Address => Required(data.customer.address) && MinLength(data.customer.address, 10)
    case BusinessNumber => data.customer.businessNumber == "" || BusinessNumberPattern(data.customer.businessNumber)
    case ServiceTypes => |data.project.serviceTypes| > 0
    case ProjectScale => true  // a radio group that always holds one of the three scales
    case ExpectedCompletion => CompletionValid(data.project.expectedCompletion, clock)
    case Description => Required(data.project.description) && MinLength(data.project.description, 50)
    case DetailedDescription =>
      Required(data.requirements.detailedDescription) && MinLength(data.requirements.detailedDescription, 100)
    case PrivacyPolicy => data.agreements.privacyPolicy
    case TermsOfService => data.agreements.termsOfService
  }

  /** The rules in the terms a user reads them: lengths, patterns, consents. */
  lemma FieldRulesMean(data: OrderFormData, clock: Clock)
    ensures FieldValid(CompanyName, data, clock) <==> |data.customer.companyName| >= 2
    ensures FieldValid(ContactPerson, data, clock) <==> |data.customer.contactPerson| >= 2
    ensures FieldValid(Address, data, clock) <==> |data.customer.address| >= 10
    ensures FieldValid(Description, data, clock) <==> |data.project.description| >= 50
    ensures FieldValid(DetailedDescription, data, clock) <==> |data.requirements.detailedDescription| >= 100
    ensures FieldValid(Phone, data, clock) <==> MobilePattern(data.customer.phone)
    ensures FieldValid(Email, data, clock) <==> EmailPattern(data.customer.email)
    ensures FieldValid(ExpectedCompletion, data, clock) <==>
      data.project.expectedCompletion != "" && clock.parsedCompletion.Some?
      && clock.parsedCompletion.value > clock.todayMidnight
  {
    if MobilePattern(data.customer.phone) {
      assert |data.customer.phone| >= 3;
    }
    if EmailPattern(data.customer.email) {
      assert |data.customer.email| > 0;
    }
  }

  /** The optional business number: empty, or the pattern. */
  lemma BusinessNumberOptional(data: OrderFormData, clock: Clock)
    ensures data.customer.businessNumber == "" ==> FieldValid(BusinessNumber, data, clock)
    ensures data.customer.businessNumber != "" ==>
      (FieldValid(BusinessNumber, data, clock) <==> BusinessNumberPattern(data.customer.businessNumber))
  {
  }

  /** A completion date passes only when it lies after today's midnight: today itself
      and earlier days fail. */
  lemma CompletionNotToday(v: string, clock: Clock)
    requires clock.parsedCompletion.Some? && clock.parsedCompletion.value <= clock.todayMidnight
    ensures !CompletionValid(v, clock)
  {
  }

  // ----- the service checkboxes -----

  /** The checkbox's `onChange`: append the id when checked, drop every copy of it
      when unchecked. */
  function ToggleService(current: seq<string>, id: string, checked: bool): (r: seq<string>)
    ensures checked ==> |r| == |current| + 1 && r[..|current|] == current && r[|current|] == id
    ensures !checked ==> id !in r && |r| <= |current|
    ensures !checked ==> forall x :: x != id ==> multiset(r)[x] == multiset(current)[x]
    ensures !checked ==> SubsequenceOf(r, current)
  {
    if checked then current + [id]
    else
      var r := Without(current, id);
      forall x | x != id ensures multiset(r)[x] == multiset(current)[x] {
        WithoutKeepsOthers(current, id, x);
      }
      WithoutIsSubsequence(current, id);
      r
  }

  /** Checking a service satisfies the non-empty rule. */
  lemma CheckedServiceIsValid(data: OrderFormData, id: string, clock: Clock)
    ensures var p := data.project.(serviceTypes := ToggleService(data.project.serviceTypes, id, true));
      FieldValid(ServiceTypes, data.(project := p), clock)
  {
  }

  /** Checking an unchecked service and unchecking it again restores the list. */
  lemma ToggleServiceRoundTrip(current: seq<string>, id: string)
    requires id !in current
    ensures ToggleService(ToggleService(current, id, true), id, false) == current
  {
    WithoutConcat(current, [id], id);
    WithoutAbsent(current, id);
    assert Without([id], id) == [];
  }

  /** Unchecking is `filter(x => x !== id)`: exactly the other ids, in their order. */
  lemma UncheckKeepsOrder(current: seq<string>, id: string)
    ensures ToggleService(current, id, false) == Filter(current, (x: string) => x != id)
    ensures SubsequenceOf(ToggleService(current, id, false), current)
  {
    WithoutIsFilter(current, id, (x: string) => x != id);
    FilterIsSubsequence(current, (x: string) => x != id);
  }

  // ----- the scale-to-budget effect -----

  /** The `Step2Form` effect: choosing a scale writes that scale's budget pair into
      `budgetMin`/`budgetMax` and nothing else. */
  function ApplyScale(p: Project, s: Scale): (q: Project)
    ensures q.projectScale == s
    ensures q.budgetMin == ScaleBudget(s).min && q.budgetMax == ScaleBudget(s).max
    ensures q.serviceTypes == p.serviceTypes && q.expectedCompletion == p.expectedCompletion
    ensures q.description == p.description
  {
    p.(projectScale := s, budgetMin := ScaleBudget(s).min, budgetMax := ScaleBudget(s).max)
  }

  /** After the effect the budget is a proper range. */
  lemma ApplyScaleBudgetIsRange(p: Project, s: Scale)
    ensures 0 < ApplyScale(p, s).budgetMin < ApplyScale(p, s).budgetMax
  {
    ScaleBudgetsAreRanges(s);
  }
}
