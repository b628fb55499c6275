/**
 * The booking form's validation schema and its step table: which values are
 * valid, which error message each field shows, and which fields gate each of
 * the eleven steps.
 *
 * The email and URL checks of the validation library are not modelled; they
 * are supplied as the predicates of a `Formats` value.
 */
module FormSchema {
  import opened JsValues

  const TotalSteps: int := 11

  datatype Field =
    | Name
    | Email
    | BusinessType
    | OtherBusinessType
    | MarketingChannels
    | Country
    | MonthlyBudget
    | Website
    | BusinessDescription
    | MonthlyRevenue
    | TargetRevenue
    | Obstacle
    | OtherObstacle
    | StartTime

  const AllFields: set<Field> := {
    Name, Email, BusinessType, OtherBusinessType, MarketingChannels, Country, MonthlyBudget,
    Website, BusinessDescription, MonthlyRevenue, TargetRevenue, Obstacle, OtherObstacle, StartTime
  }

  /**
   * The business type as the form holds it: `undefined`, `null` (read from a
   * radio group with nothing checked), or a string.
   */
  datatype Choice = Unset | Unchecked | Chosen(value: string)

  /** The form's values; `None` is a field left `undefined`. */
  datatype FormData = FormData(
    name: string,
    email: string,
    businessType: Choice,
    otherBusinessType: Option<string>,
    marketingChannels: seq<string>,
    country: string,
    monthlyBudget: string,
    website: string,
    businessDescription: string,
    monthlyRevenue: int,
    targetRevenue: int,
    obstacle: string,
    otherObstacle: Option<string>,
    startTime: string)

  /** The library's email and URL format checks. */
  datatype Formats = Formats(isEmail: string -> bool, isUrl: string -> bool)

  /** The values the form is mounted with. */
  const DefaultValues: FormData := FormData(
    name := "",
    email := "",
    businessType := Unset,
    otherBusinessType := Some(""),
    marketingChannels := [],
    country := "",
    monthlyBudget := "",
    website := "",
    businessDescription := "",
    monthlyRevenue := 0,
    targetRevenue := 0,
    obstacle := "",
    otherObstacle := Some(""),
    startTime := "")

  const BusinessTypeEnum: set<string> := {"product", "service", "other"}

  /** The error messages the schema can show. */
  datatype Message =
    | NameTooShort
    | EmailInvalid
    | EnumMismatch(received: string)
    | ReceivedNull
    | ChannelsEmpty
    | CountryMissing
    | BudgetMissing
    | UrlInvalid
    | DescriptionTooShort
    | MonthlyRevenueTooLow
    | TargetRevenueTooLow
    | ObstacleMissing
    | StartTimeMissing
    | TargetNotAboveCurrent

  /** How the library's enum message begins; it goes on to quote the value received. */
  const EnumMismatchPrefix: string := "Invalid enum value. Expected 'product' | 'service' | 'other', received '"

  /** The words of each message; the two business-type messages are the validation library's own wording. */
  function Text(m: Message): (words: string)
    ensures m.EnumMismatch? ==> |words| == |EnumMismatchPrefix| + |m.received| + 1
    ensures m.EnumMismatch? ==> words[|EnumMismatchPrefix|..|words| - 1] == m.received
  {
    match m
    case NameTooShort => "Name must be at least 2 characters"
    case EmailInvalid => "Please enter a valid email"
    case EnumMismatch(received) => EnumMismatchPrefix + received + "'"
    case ReceivedNull => "Expected 'product' | 'service' | 'other', received null"
    case ChannelsEmpty => "Please select at least one marketing channel"
    case CountryMissing => "Please select your country"
    case BudgetMissing => "Please select your monthly budget"
    case UrlInvalid => "Please enter a valid URL"
    case DescriptionTooShort => "Please provide more details about your business"
    case MonthlyRevenueTooLow => "Monthly revenue must be greater than 0"
    case TargetRevenueTooLow => "Target revenue must be greater than 0"
    case ObstacleMissing => "Please select your biggest challenge"
    case StartTimeMissing => "Please select a consultation time"
    case TargetNotAboveCurrent => "Target revenue must be greater than current revenue"
  }

  /** The issue a field's own rule reports, if any. */
  function FieldIssue(f: Field, d: FormData, fm: Formats): (r: Option<Message>)
    ensures r != Some(TargetNotAboveCurrent)
    ensures f == OtherBusinessType || f == OtherObstacle ==> r == None
    ensures f == BusinessType ==> (r.None? <==> RefineRuns(d))
  {
    match f
    case Name => if |d.name| < 2 then Some(NameTooShort) else None
    case Email => if fm.isEmail(d.email) then None else Some(EmailInvalid)
    case BusinessType =>
      (match d.businessType
       case Unset => None
       case Unchecked => Some(ReceivedNull)
       case Chosen(v) => if v in BusinessTypeEnum then None else Some(EnumMismatch(v)))
    case OtherBusinessType => None
    case MarketingChannels => if |d.marketingChannels| < 1 then Some(ChannelsEmpty) else None
    case Country => if |d.country| < 1 then Some(CountryMissing) else None
    case MonthlyBudget => if |d.monthlyBudget| < 1 then Some(BudgetMissing) else None
    case Website => if fm.isUrl(d.website) || d.website == "" then None else Some(UrlInvalid)
    case BusinessDescription => if |d.businessDescription| < 10 then Some(DescriptionTooShort) else None
    case MonthlyRevenue => if d.monthlyRevenue < 1 then Some(MonthlyRevenueTooLow) else None
    case TargetRevenue => if d.targetRevenue < 1 then Some(TargetRevenueTooLow) else None
    case Obstacle => if |d.obstacle| < 1 then Some(ObstacleMissing) else None
    case OtherObstacle => None
    case StartTime => if |d.startTime| < 1 then Some(StartTimeMissing) else None
  }

  /** The schema's one cross-field rule. */
  predicate RevenueGrows(d: FormData) {
    d.targetRevenue > d.monthlyRevenue
  }

  /**
   * Whether the cross-field rule is evaluated at all. A business type that is
   * `null` or outside the enum aborts the object's parse, and the refinement
   * is then skipped; every other failing rule leaves the parse going.
   */
  predicate RefineRuns(d: FormData) {
    d.businessType.Unset? || (d.businessType.Chosen? && d.businessType.value in BusinessTypeEnum)
  }

  /**
   * The message shown on field `f` after the whole schema is checked: the
   * first issue on that field, the field rules coming before the cross-field
   * rule, whose issue (when it is evaluated) is filed under the target revenue.
   */
  function Issue(f: Field, d: FormData, fm: Formats): (r: Option<Message>)
    ensures f != TargetRevenue ==> r == FieldIssue(f, d, fm)
    ensures f == TargetRevenue && d.targetRevenue < 1 ==> r == Some(TargetRevenueTooLow)
    ensures f == TargetRevenue && d.targetRevenue >= 1 ==>
      r == if RefineRuns(d) && !RevenueGrows(d) then Some(TargetNotAboveCurrent) else None
  {
    var own := FieldIssue(f, d, fm);
    if f == TargetRevenue && own.None? && RefineRuns(d) && !RevenueGrows(d) then Some(TargetNotAboveCurrent)
    else own
  }

  /** Field `f` shows no error once the whole schema is checked. */
  predicate FieldValid(f: Field, d: FormData, fm: Formats) {
    Issue(f, d, fm).None?
  }

  /** The schema's rules, field by field, as plain conditions on the values. */
  predicate Rule(f: Field, d: FormData, fm: Formats) {
    match f
    case Name => |d.name| >= 2
    case Email => fm.isEmail(d.email)
    case BusinessType => d.businessType == Unset || (d.businessType.Chosen? && d.businessType.value in {"product", "service", "other"})
    case OtherBusinessType => true
    case MarketingChannels => d.marketingChannels != []
    case Country => d.country != ""
    case MonthlyBudget => d.monthlyBudget != ""
    case Website => d.website == "" || fm.isUrl(d.website)
    case BusinessDescription => |d.businessDescription| >= 10
    case MonthlyRevenue => d.monthlyRevenue >= 1
    case TargetRevenue =>
      d.targetRevenue >= 1
      && (d.targetRevenue > d.monthlyRevenue || !(d.businessType == Unset || (d.businessType.Chosen? && d.businessType.value in {"product", "service", "other"})))
    case Obstacle => d.obstacle != ""
    case OtherObstacle => true
    case StartTime => d.startTime != ""
  }

  /** A field shows no error exactly when its rule holds. */
  lemma FieldRules(f: Field, d: FormData, fm: Formats)
    ensures FieldValid(f, d, fm) <==> Rule(f, d, fm)
  {
    match f
    case BusinessType => assert BusinessTypeEnum == {"product", "service", "other"};
    case TargetRevenue => assert BusinessTypeEnum == {"product", "service", "other"};
    case _ =>
  }

  /**
   * The cross-field rule fails exactly when the target does not exceed the
   * current revenue, and its message lands on the target revenue only: the
   * monthly revenue's verdict does not depend on the target at all. A
   * rejected business type silences the rule.
   */
  lemma CrossFieldRuleOnTarget(d: FormData, fm: Formats, target: int)
    ensures Issue(MonthlyRevenue, d.(targetRevenue := target), fm) == Issue(MonthlyRevenue, d, fm)
    ensures d.targetRevenue >= 1 && FieldValid(BusinessType, d, fm) ==>
      (Issue(TargetRevenue, d, fm) == Some(TargetNotAboveCurrent) <==> d.targetRevenue <= d.monthlyRevenue)
    ensures !FieldValid(BusinessType, d, fm) ==> Issue(TargetRevenue, d, fm) != Some(TargetNotAboveCurrent)
    ensures forall f :: f != TargetRevenue ==> Issue(f, d, fm) != Some(TargetNotAboveCurrent)
  {
    forall f | f != TargetRevenue
      ensures Issue(f, d, fm) != Some(TargetNotAboveCurrent)
    {
    }
  }

  /**
   * A business type outside the enum blocks step 3 but silences the
   * cross-field rule, so step 9 then passes with a target at or below the
   * current revenue.
   */
  lemma InvalidBusinessTypeSilencesRefine(d: FormData, fm: Formats)
    requires d.businessType == Chosen("retail")
    requires 1 <= d.targetRevenue <= d.monthlyRevenue
    ensures !StepValid(3, d, fm)
    ensures StepValid(9, d, fm)
  {
    StepGate(3, d, fm);
    StepGate(9, d, fm);
  }

  /**
   * A radio group read with nothing checked gives `null`, which the optional
   * enum rejects: step 3 fails with the library's type message, and the
   * cross-field rule is skipped.
   */
  lemma UncheckedBlocksStep3(d: FormData, fm: Formats)
    requires d.businessType == Unchecked
    ensures Issue(BusinessType, d, fm) == Some(ReceivedNull)
    ensures !StepValid(3, d, fm)
    ensures !RefineRuns(d) && Issue(TargetRevenue, d, fm) != Some(TargetNotAboveCurrent)
  {
    assert BusinessType in FieldsForStep(3);
  }

  /** The inverse of the step table: the step that gates a field, if any. */
  function StepOf(f: Field): (s: Option<int>)
    ensures s.None? <==> f == OtherBusinessType || f == OtherObstacle
    ensures s.Some? ==> 1 <= s.value <= TotalSteps
  {
    match f
    case Name => Some(1)
    case Email => Some(2)
    case BusinessType => Some(3)
    case OtherBusinessType => None
    case MarketingChannels => Some(4)
    case Country => Some(5)
    case MonthlyBudget => Some(6)
    case Website => Some(7)
    case BusinessDescription => Some(8)
    case MonthlyRevenue => Some(9)
    case TargetRevenue => Some(9)
    case Obstacle => Some(10)
    case OtherObstacle => None
    case StartTime => Some(11)
  }

  /** The fields validated before leaving step `stepNumber`. */
  function FieldsForStep(stepNumber: int): (fields: seq<Field>)
    ensures stepNumber == 9 ==> fields == [MonthlyRevenue, TargetRevenue]
    ensures 1 <= stepNumber <= TotalSteps && stepNumber != 9 ==> |fields| == 1
    ensures !(1 <= stepNumber <= TotalSteps) ==> fields == []
    ensures forall f :: f in fields <==> StepOf(f) == Some(stepNumber)
  {
    match stepNumber
    case 1 => [Name]
    case 2 => [Email]
    case 3 => [BusinessType]
    case 4 => [MarketingChannels]
    case 5 => [Country]
    case 6 => [MonthlyBudget]
    case 7 => [Website]
    case 8 => [BusinessDescription]
    case 9 => [MonthlyRevenue, TargetRevenue]
    case 10 => [Obstacle]
    case 11 => [StartTime]
    case _ => []
  }

  /** Every field of step `step` passes the schema. */
  predicate StepValid(step: int, d: FormData, fm: Formats) {
    forall f :: f in FieldsForStep(step) ==> FieldValid(f, d, fm)
  }

  /** What each step's gate demands, written as conditions on the values. */
  predicate GateRule(step: int, d: FormData, fm: Formats) {
    match step
    case 1 => |d.name| >= 2
    case 2 => fm.isEmail(d.email)
    case 3 => d.businessType == Unset || (d.businessType.Chosen? && d.businessType.value in {"product", "service", "other"})
    case 4 => d.marketingChannels != []
    case 5 => d.country != ""
    case 6 => d.monthlyBudget != ""
    case 7 => d.website == "" || fm.isUrl(d.website)
    case 8 => |d.businessDescription| >= 10
    case 9 =>
      d.monthlyRevenue >= 1 && d.targetRevenue >= 1
      && (d.targetRevenue > d.monthlyRevenue || !(d.businessType == Unset || (d.businessType.Chosen? && d.businessType.value in {"product", "service", "other"})))
    case 10 => d.obstacle != ""
    case 11 => d.startTime != ""
    case _ => true
  }

  /** A step's gate passes exactly when the conditions of its fields hold. */
  lemma StepGate(step: int, d: FormData, fm: Formats)
    ensures StepValid(step, d, fm) <==> GateRule(step, d, fm)
  {
    var fields := FieldsForStep(step);
    forall f | f in fields
      ensures FieldValid(f, d, fm) <==> Rule(f, d, fm)
    {
      FieldRules(f, d, fm);
    }
    if 1 <= step <= TotalSteps {
      assert fields[0] in fields;
      if step == 9 {
        assert fields[1] in fields;
      }
    }
  }

  /** The whole schema passes: what the final submit checks. */
  predicate SchemaValid(d: FormData, fm: Formats) {
    forall f :: FieldValid(f, d, fm)
  }

  /** The full schema is exactly the eleven step gates together. */
  lemma SchemaIsAllSteps(d: FormData, fm: Formats)
    ensures SchemaValid(d, fm) <==> forall s :: 1 <= s <= TotalSteps ==> StepValid(s, d, fm)
  {
    if forall s :: 1 <= s <= TotalSteps ==> StepValid(s, d, fm) {
      forall f ensures FieldValid(f, d, fm) {
        var s := StepOf(f);
        if s.Some? {
          assert StepValid(s.value, d, fm);
          assert f in FieldsForStep(s.value);
        } else {
          FieldRules(f, d, fm);
        }
      }
    }
  }

  lemma AllFieldsListed()
    ensures forall f :: f in AllFields
  {
    forall f ensures f in AllFields {
      match f
      case Name => case Email => case BusinessType => case OtherBusinessType =>
      case MarketingChannels => case Country => case MonthlyBudget => case Website =>
      case BusinessDescription => case MonthlyRevenue => case TargetRevenue =>
      case Obstacle => case OtherObstacle => case StartTime =>
    }
  }

  /** Every message the whole schema reports, keyed by field. */
  function SchemaErrors(d: FormData, fm: Formats): (errors: map<Field, Message>)
    ensures forall f :: f in errors <==> !FieldValid(f, d, fm)
    ensures forall f :: f in errors ==> Issue(f, d, fm) == Some(errors[f])
  {
    AllFieldsListed();
    map f | f in AllFields && Issue(f, d, fm).Some? :: Issue(f, d, fm).value
  }

  /**
   * The error map after validating `fields` only: their entries are replaced
   * by the schema's verdict, every other entry is kept as it was.
   */
  function Revalidate(errors: map<Field, Message>, fields: seq<Field>, d: FormData, fm: Formats)
    : (r: map<Field, Message>)
    ensures forall f :: f in fields ==> (f in r <==> !FieldValid(f, d, fm))
    ensures forall f :: f in fields && f in r ==> Issue(f, d, fm) == Some(r[f])
    ensures forall f :: f !in fields ==> (f in r <==> f in errors)
    ensures forall f :: f !in fields && f in r ==> r[f] == errors[f]
  {
    map f | (f in errors || f in fields) && (f in fields ==> Issue(f, d, fm).Some?) ::
      if f in fields then Issue(f, d, fm).value else errors[f]
  }

  /**
   * The values the form starts with fail the first gate (the name is empty)
   * but already satisfy the optional business type and the website.
   */
  lemma DefaultsBlockFirstStep(fm: Formats)
    ensures !StepValid(1, DefaultValues, fm)
    ensures Issue(Name, DefaultValues, fm) == Some(NameTooShort)
    ensures StepValid(3, DefaultValues, fm) && StepValid(7, DefaultValues, fm)
    ensures forall s :: s in {4, 5, 6, 8, 9, 10, 11} ==> !StepValid(s, DefaultValues, fm)
  {
    forall s | 1 <= s <= TotalSteps ensures StepValid(s, DefaultValues, fm) <==> GateRule(s, DefaultValues, fm) {
      StepGate(s, DefaultValues, fm);
    }
  }
}
