/**
 * The offer form (src/components/OfferForm.tsx): its validation schema, the
 * cross-field refinement, and the filler that turns a partial offer into
 * complete form values.
 *
 * The form values are typed, so no type check of the schema can fail; the
 * schema then reports every failed field check (in the order its keys are
 * declared) followed by the refinement's issues.
 */
module OfferForm {
  import opened Wrappers
  import opened Types
  import opened Schema
  import CalendarSelector

  /** The values the form edits and the schema validates. */
  datatype OfferFormValues = OfferFormValues(
    title: string,
    description: string,
    offerType: OfferType,
    percentage: Option<real>,
    specialText: Option<string>,
    happyHourPrice: Option<real>,
    schedule: OfferSchedule,
    validity: OfferValidity,
    isActive: bool)

  /** A partial set of form values: any field may be missing. */
  datatype OfferDraft = OfferDraft(
    title: Option<string>,
    description: Option<string>,
    offerType: Option<OfferType>,
    percentage: Option<real>,
    specialText: Option<string>,
    happyHourPrice: Option<real>,
    schedule: Option<OfferSchedule>,
    validity: Option<OfferValidity>,
    isActive: Option<bool>)

  const TitleMinLength := 4
  const DescriptionMinLength := 10
  const PercentageMin: real := 5.0
  const PercentageMax: real := 80.0
  const SpecialTextMaxLength := 160
  const HappyHourPriceMin: real := 1.0

  /** The fields an offer issue can be attached to. */
  datatype OfferField =
    | TitleField | DescriptionField | PercentageField | SpecialTextField | HappyHourPriceField
    | DaysField | StartTimeField | EndTimeField | EndDateField

  /** The issue path the validation library reports for each field. */
  function PathOf(f: OfferField): seq<PathKey> {
    match f
    case TitleField => [Key("title")]
    case DescriptionField => [Key("description")]
    case PercentageField => [Key("percentage")]
    case SpecialTextField => [Key("specialText")]
    case HappyHourPriceField => [Key("happyHourPrice")]
    case DaysField => [Key("schedule"), Key("days")]
    case StartTimeField => [Key("schedule"), Key("startTime")]
    case EndTimeField => [Key("schedule"), Key("endTime")]
    case EndDateField => [Key("validity"), Key("endDate")]
  }

  type OfferIssue = Issue<OfferField>

  /** The length checks on `title` and `description`. */
  function TextIssues(v: OfferFormValues): seq<OfferIssue> {
    ReportIf(|v.title| < TitleMinLength, TitleField, TooSmall, Some("Titre trop court"))
    + ReportIf(|v.description| < DescriptionMinLength, DescriptionField, TooSmall, Some("Décrivez votre avantage"))
  }

  /** The bounds on the three optional value fields, checked whenever a value is present. */
  function ValueIssues(v: OfferFormValues): seq<OfferIssue> {
    ReportIf(v.percentage.Some? && v.percentage.value < PercentageMin, PercentageField, TooSmall, None)
    + ReportIf(v.percentage.Some? && v.percentage.value > PercentageMax, PercentageField, TooBig, None)
    + ReportIf(v.specialText.Some? && |v.specialText.value| > SpecialTextMaxLength, SpecialTextField, TooBig, None)
    + ReportIf(v.happyHourPrice.Some? && v.happyHourPrice.value < HappyHourPriceMin, HappyHourPriceField, TooSmall, None)
  }

  /** `scheduleSchema`: at least one day, and both times in HH:MM shape. */
  function ScheduleIssues(s: OfferSchedule): seq<OfferIssue> {
    ReportIf(|s.days| < 1, DaysField, TooSmall, Some("Sélectionnez au moins un jour"))
    + ReportIf(!IsClockText(s.startTime), StartTimeField, InvalidString, Some("Format HH:MM"))
    + ReportIf(!IsClockText(s.endTime), EndTimeField, InvalidString, Some("Format HH:MM"))
  }

  /** The field checks of `offerSchema`, in the order of its keys (`type`, `validity` and `isActive` have none). */
  function FieldIssues(v: OfferFormValues): seq<OfferIssue> {
    TextIssues(v) + ValueIssues(v) + ScheduleIssues(v.schedule)
  }

  /** `specialText` is falsy: missing or the empty string. */
  predicate SpecialTextBlank(v: OfferFormValues) {
    v.specialText.None? || v.specialText.value == ""
  }

  /** The `superRefine` step: the chosen type's value is required, and the validity range must not run backwards. */
  function RefinementIssues(v: OfferFormValues): seq<OfferIssue> {
    ReportIf(v.offerType == Percentage && v.percentage.None?, PercentageField, Custom, Some("Indiquez un pourcentage"))
    + ReportIf(v.offerType == HappyHour && v.happyHourPrice.None?, HappyHourPriceField, Custom, Some("Indiquez un prix Happy Hour"))
    + ReportIf(v.offerType == Special && SpecialTextBlank(v), SpecialTextField, Custom, Some("Décrivez votre avantage spécial"))
    + ReportIf(v.validity.endDate < v.validity.startDate, EndDateField, Custom, Some("La fin doit être après le début"))
  }

  /** Every issue the schema reports for `v`: the field checks, then the refinement. */
  function OfferIssues(v: OfferFormValues): seq<OfferIssue> {
    FieldIssues(v) + RefinementIssues(v)
  }

  /** Parsing: all or nothing. The values come back unchanged when no issue is found. */
  function ParseOffer(v: OfferFormValues): (r: Result<OfferFormValues, seq<OfferIssue>>)
    ensures r.Success? ==> r.value == v
    ensures r.Failure? ==> r.error != [] && r.error == OfferIssues(v)
  {
    var issues := OfferIssues(v);
    if issues == [] then Success(v) else Failure(issues)
  }

  /** The rule about field `f` that `v` breaks, stated field by field without reference to the schema. */
  predicate Breaks(v: OfferFormValues, f: OfferField) {
    match f
    case TitleField => |v.title| < 4
    case DescriptionField => |v.description| < 10
    case PercentageField =>
      || (v.offerType == Percentage && v.percentage.None?)
      || (v.percentage.Some? && !(5.0 <= v.percentage.value <= 80.0))
    case SpecialTextField =>
      || (v.offerType == Special && (v.specialText.None? || v.specialText.value == ""))
      || (v.specialText.Some? && |v.specialText.value| > 160)
    case HappyHourPriceField =>
      || (v.offerType == HappyHour && v.happyHourPrice.None?)
      || (v.happyHourPrice.Some? && v.happyHourPrice.value < 1.0)
    case DaysField => v.schedule.days == []
    case StartTimeField => !IsClockText(v.schedule.startTime)
    case EndTimeField => !IsClockText(v.schedule.endTime)
    case EndDateField => v.validity.endDate < v.validity.startDate
  }

  /** An offer that breaks none of the rules. */
  predicate Acceptable(v: OfferFormValues) {
    && |v.title| >= 4
    && |v.description| >= 10
    && (v.percentage.Some? ==> 5.0 <= v.percentage.value <= 80.0)
    && (v.specialText.Some? ==> |v.specialText.value| <= 160)
    && (v.happyHourPrice.Some? ==> v.happyHourPrice.value >= 1.0)
    && (v.offerType == Percentage ==> v.percentage.Some?)
    && (v.offerType == HappyHour ==> v.happyHourPrice.Some?)
    && (v.offerType == Special ==> v.specialText.Some? && v.specialText.value != "")
    && |v.schedule.days| >= 1
    && IsClockText(v.schedule.startTime)
    && IsClockText(v.schedule.endTime)
    && v.validity.startDate <= v.validity.endDate
  }

  lemma TextIssuesAt(v: OfferFormValues, f: OfferField)
    ensures HasIssueAt(TextIssues(v), f) <==> (f == TitleField || f == DescriptionField) && Breaks(v, f)
  {
    var title := ReportIf(|v.title| < TitleMinLength, TitleField, TooSmall, Some("Titre trop court"));
    var description := ReportIf(|v.description| < DescriptionMinLength, DescriptionField, TooSmall, Some("Décrivez votre avantage"));
    HasIssueAtAppend(title, description, f);
    HasIssueAtReportIf(|v.title| < TitleMinLength, TitleField, TooSmall, Some("Titre trop court"), f);
    HasIssueAtReportIf(|v.description| < DescriptionMinLength, DescriptionField, TooSmall, Some("Décrivez votre avantage"), f);
  }

  lemma ValueIssuesAt(v: OfferFormValues, f: OfferField)
    ensures HasIssueAt(ValueIssues(v), f) <==>
      || (f == PercentageField && v.percentage.Some? && !(5.0 <= v.percentage.value <= 80.0))
      || (f == SpecialTextField && v.specialText.Some? && |v.specialText.value| > 160)
      || (f == HappyHourPriceField && v.happyHourPrice.Some? && v.happyHourPrice.value < 1.0)
  {
    var low := ReportIf(v.percentage.Some? && v.percentage.value < PercentageMin, PercentageField, TooSmall, None);
    var high := ReportIf(v.percentage.Some? && v.percentage.value > PercentageMax, PercentageField, TooBig, None);
    var text := ReportIf(v.specialText.Some? && |v.specialText.value| > SpecialTextMaxLength, SpecialTextField, TooBig, None);
    var price := ReportIf(v.happyHourPrice.Some? && v.happyHourPrice.value < HappyHourPriceMin, HappyHourPriceField, TooSmall, None);
    HasIssueAtAppend(low + high + text, price, f);
    HasIssueAtAppend(low + high, text, f);
    HasIssueAtAppend(low, high, f);
    HasIssueAtReportIf(v.percentage.Some? && v.percentage.value < PercentageMin, PercentageField, TooSmall, None, f);
    HasIssueAtReportIf(v.percentage.Some? && v.percentage.value > PercentageMax, PercentageField, TooBig, None, f);
    HasIssueAtReportIf(v.specialText.Some? && |v.specialText.value| > SpecialTextMaxLength, SpecialTextField, TooBig, None, f);
    HasIssueAtReportIf(v.happyHourPrice.Some? && v.happyHourPrice.value < HappyHourPriceMin, HappyHourPriceField, TooSmall, None, f);
  }

  lemma ScheduleIssuesAt(v: OfferFormValues, f: OfferField)
    ensures HasIssueAt(ScheduleIssues(v.schedule), f) <==> (f == DaysField || f == StartTimeField || f == EndTimeField) && Breaks(v, f)
  {
    var s := v.schedule;
    var days := ReportIf(|s.days| < 1, DaysField, TooSmall, Some("Sélectionnez au moins un jour"));
    var start := ReportIf(!IsClockText(s.startTime), StartTimeField, InvalidString, Some("Format HH:MM"));
    var end := ReportIf(!IsClockText(s.endTime), EndTimeField, InvalidString, Some("Format HH:MM"));
    HasIssueAtAppend(days + start, end, f);
    HasIssueAtAppend(days, start, f);
    HasIssueAtReportIf(|s.days| < 1, DaysField, TooSmall, Some("Sélectionnez au moins un jour"), f);
    HasIssueAtReportIf(!IsClockText(s.startTime), StartTimeField, InvalidString, Some("Format HH:MM"), f);
    HasIssueAtReportIf(!IsClockText(s.endTime), EndTimeField, InvalidString, Some("Format HH:MM"), f);
  }

  lemma RefinementIssuesAt(v: OfferFormValues, f: OfferField)
    ensures HasIssueAt(RefinementIssues(v), f) <==>
      || (f == PercentageField && v.offerType == Percentage && v.percentage.None?)
      || (f == HappyHourPriceField && v.offerType == HappyHour && v.happyHourPrice.None?)
      || (f == SpecialTextField && v.offerType == Special && SpecialTextBlank(v))
      || (f == EndDateField && v.validity.endDate < v.validity.startDate)
  {
    var percentage := ReportIf(v.offerType == Percentage && v.percentage.None?, PercentageField, Custom, Some("Indiquez un pourcentage"));
    var price := ReportIf(v.offerType == HappyHour && v.happyHourPrice.None?, HappyHourPriceField, Custom, Some("Indiquez un prix Happy Hour"));
    var text := ReportIf(v.offerType == Special && SpecialTextBlank(v), SpecialTextField, Custom, Some("Décrivez votre avantage spécial"));
    var dates := ReportIf(v.validity.endDate < v.validity.startDate, EndDateField, Custom, Some("La fin doit être après le début"));
    HasIssueAtAppend(percentage + price + text, dates, f);
    HasIssueAtAppend(percentage + price, text, f);
    HasIssueAtAppend(percentage, price, f);
    HasIssueAtReportIf(v.offerType == Percentage && v.percentage.None?, PercentageField, Custom, Some("Indiquez un pourcentage"), f);
    HasIssueAtReportIf(v.offerType == HappyHour && v.happyHourPrice.None?, HappyHourPriceField, Custom, Some("Indiquez un prix Happy Hour"), f);
    HasIssueAtReportIf(v.offerType == Special && SpecialTextBlank(v), SpecialTextField, Custom, Some("Décrivez votre avantage spécial"), f);
    HasIssueAtReportIf(v.validity.endDate < v.validity.startDate, EndDateField, Custom, Some("La fin doit être après le début"), f);
  }

  /** The schema reports an issue at a field exactly when the offer breaks that field's rule. */
  lemma ReportedExactlyWhenBroken(v: OfferFormValues, f: OfferField)
    ensures HasIssueAt(OfferIssues(v), f) <==> Breaks(v, f)
  {
    HasIssueAtAppend(FieldIssues(v), RefinementIssues(v), f);
    HasIssueAtAppend(TextIssues(v) + ValueIssues(v), ScheduleIssues(v.schedule), f);
    HasIssueAtAppend(TextIssues(v), ValueIssues(v), f);
    TextIssuesAt(v, f);
    ValueIssuesAt(v, f);
    ScheduleIssuesAt(v, f);
    RefinementIssuesAt(v, f);
  }

  /** The schema accepts exactly the values that follow every rule. */
  lemma ParseAcceptsExactlyAcceptable(v: OfferFormValues)
    ensures ParseOffer(v).Success? <==> Acceptable(v)
  {
    var issues := OfferIssues(v);
    if issues != [] {
      var f := issues[0].path;
      assert HasIssueAt(issues, f) by { assert issues[0] in issues; }
      ReportedExactlyWhenBroken(v, f);
    }
    if !Acceptable(v) {
      var broken :| broken in {TitleField, DescriptionField, PercentageField, SpecialTextField, HappyHourPriceField,
                               DaysField, StartTimeField, EndTimeField, EndDateField} && Breaks(v, broken);
      ReportedExactlyWhenBroken(v, broken);
    }
  }

  /** Title and description lengths: an issue at each field exactly when the text is too short. */
  lemma TextLengthRules(v: OfferFormValues)
    ensures HasIssueAt(OfferIssues(v), TitleField) <==> |v.title| < 4
    ensures HasIssueAt(OfferIssues(v), DescriptionField) <==> |v.description| < 10
  {
    ReportedExactlyWhenBroken(v, TitleField);
    ReportedExactlyWhenBroken(v, DescriptionField);
  }

  /** `percentage`: required when the type is percentage, and bounded to [5, 80] whenever present. */
  lemma PercentageRule(v: OfferFormValues)
    ensures HasIssueAt(OfferIssues(v), PercentageField) <==>
      || (v.offerType == Percentage && v.percentage.None?)
      || (v.percentage.Some? && !(5.0 <= v.percentage.value <= 80.0))
  {
    ReportedExactlyWhenBroken(v, PercentageField);
  }

  /** `happyHourPrice`: required when the type is happy hour, and at least 1 whenever present. */
  lemma HappyHourPriceRule(v: OfferFormValues)
    ensures HasIssueAt(OfferIssues(v), HappyHourPriceField) <==>
      || (v.offerType == HappyHour && v.happyHourPrice.None?)
      || (v.happyHourPrice.Some? && v.happyHourPrice.value < 1.0)
  {
    ReportedExactlyWhenBroken(v, HappyHourPriceField);
  }

  /** `specialText`: required and non-empty when the type is special, and at most 160 characters whenever present. */
  lemma SpecialTextRule(v: OfferFormValues)
    ensures HasIssueAt(OfferIssues(v), SpecialTextField) <==>
      || (v.offerType == Special && (v.specialText.None? || v.specialText.value == ""))
      || (v.specialText.Some? && |v.specialText.value| > 160)
  {
    ReportedExactlyWhenBroken(v, SpecialTextField);
  }

  /** The schedule: a day is required and both times must have the HH:MM shape; start may follow end. */
  lemma ScheduleRules(v: OfferFormValues)
    ensures HasIssueAt(OfferIssues(v), DaysField) <==> v.schedule.days == []
    ensures HasIssueAt(OfferIssues(v), StartTimeField) <==> !IsClockText(v.schedule.startTime)
    ensures HasIssueAt(OfferIssues(v), EndTimeField) <==> !IsClockText(v.schedule.endTime)
  {
    ReportedExactlyWhenBroken(v, DaysField);
    ReportedExactlyWhenBroken(v, StartTimeField);
    ReportedExactlyWhenBroken(v, EndTimeField);
  }

  /** A validity range that ends before it starts is reported at `validity.endDate`; equal dates pass. */
  lemma EndDateRule(v: OfferFormValues)
    ensures HasIssueAt(OfferIssues(v), EndDateField) <==> v.validity.endDate < v.validity.startDate
    ensures PathOf(EndDateField) == [Key("validity"), Key("endDate")]
  {
    ReportedExactlyWhenBroken(v, EndDateField);
  }

  const DefaultSchedule: OfferSchedule := OfferSchedule([Wednesday, Thursday, Friday], "17:00", "20:00")

  /** How many days after `today` the default validity range ends. */
  const DefaultValidityDays := 30

  /**
   * `createDefaults`: every provided field is kept; a missing one takes its
   * default. The validity default runs from `today` to thirty days later.
   */
  function CreateDefaults(values: OfferDraft, today: Day): (r: OfferFormValues)
    ensures r.percentage.Some? && r.specialText.Some? && r.happyHourPrice.Some?
    ensures values.validity.None? ==> r.validity.startDate == today && r.validity.endDate - r.validity.startDate == DefaultValidityDays
  {
    OfferFormValues(
      values.title.GetOr(""),
      values.description.GetOr(""),
      values.offerType.GetOr(Percentage),
      Some(values.percentage.GetOr(20.0)),
      Some(values.specialText.GetOr("")),
      Some(values.happyHourPrice.GetOr(9.0)),
      values.schedule.GetOr(DefaultSchedule),
      values.validity.GetOr(OfferValidity(today, today + DefaultValidityDays)),
      values.isActive.GetOr(true))
  }

  /** Complete form values seen as a draft in which every field is provided. */
  function AsDraft(v: OfferFormValues): OfferDraft {
    OfferDraft(Some(v.title), Some(v.description), Some(v.offerType), v.percentage, v.specialText,
               v.happyHourPrice, Some(v.schedule), Some(v.validity), Some(v.isActive))
  }

  const EmptyDraft: OfferDraft := OfferDraft(None, None, None, None, None, None, None, None, None)

  /** Provided fields are kept, missing ones defaulted, and all three value fields are filled. */
  lemma CreateDefaultsKeepsOrDefaults(values: OfferDraft, today: Day)
    ensures var v := CreateDefaults(values, today);
      && (values.title.Some? ==> v.title == values.title.value)
      && (values.title.None? ==> v.title == "")
      && (values.description.Some? ==> v.description == values.description.value)
      && (values.description.None? ==> v.description == "")
      && v.offerType == (if values.offerType.Some? then values.offerType.value else Percentage)
      && v.percentage == Some(if values.percentage.Some? then values.percentage.value else 20.0)
      && v.specialText == Some(if values.specialText.Some? then values.specialText.value else "")
      && v.happyHourPrice == Some(if values.happyHourPrice.Some? then values.happyHourPrice.value else 9.0)
      && v.schedule == (if values.schedule.Some? then values.schedule.value else DefaultSchedule)
      && (values.validity.None? ==> v.validity.startDate == today && v.validity.endDate == today + 30)
      && (values.validity.Some? ==> v.validity == values.validity.value)
      && v.isActive == (values.isActive.None? || values.isActive.value)
  {
  }

  /** Filling defaults twice changes nothing: the filled values are a fixed point. */
  lemma CreateDefaultsIdempotent(values: OfferDraft, today: Day, later: Day)
    ensures CreateDefaults(AsDraft(CreateDefaults(values, today)), later) == CreateDefaults(values, today)
  {
  }

  /** An empty form fails only on its blank title and description. */
  lemma EmptyFormIssues(today: Day)
    ensures OfferIssues(CreateDefaults(EmptyDraft, today)) == [
      Issue(TitleField, TooSmall, Some("Titre trop court")),
      Issue(DescriptionField, TooSmall, Some("Décrivez votre avantage"))]
  {
    assert IsClockText("17:00") && IsClockText("20:00");
  }

  /**
   * With the defaults in place only the chosen type's field is required: a
   * titled and described percentage or happy-hour offer passes, a special
   * offer still needs its text.
   */
  lemma DefaultsRequireOnlyChosenType(title: string, description: string, t: OfferType, today: Day)
    requires |title| >= 4 && |description| >= 10
    ensures var v := CreateDefaults(EmptyDraft.(title := Some(title), description := Some(description), offerType := Some(t)), today);
      ParseOffer(v).Success? <==> t != Special
  {
    var v := CreateDefaults(EmptyDraft.(title := Some(title), description := Some(description), offerType := Some(t)), today);
    assert IsClockText("17:00") && IsClockText("20:00");
    ParseAcceptsExactlyAcceptable(v);
  }

  /** A percentage offer for Fridays 17:00-20:00 from 2024-09-01 to 2024-12-31 is accepted and active by default. */
  lemma FridayPercentageOfferAccepted()
    ensures var v := CreateDefaults(OfferDraft(
        Some("Apéro -30%"), Some("Sur toutes les planches"), Some(Percentage), Some(30.0), None, None,
        Some(OfferSchedule([Friday], "17:00", "20:00")), Some(OfferValidity(19967, 20088)), None), 0);
      ParseOffer(v) == Success(v) && v.isActive
  {
    var v := CreateDefaults(OfferDraft(
        Some("Apéro -30%"), Some("Sur toutes les planches"), Some(Percentage), Some(30.0), None, None,
        Some(OfferSchedule([Friday], "17:00", "20:00")), Some(OfferValidity(19967, 20088)), None), 0);
    assert IsClockText("17:00") && IsClockText("20:00");
    ParseAcceptsExactlyAcceptable(v);
  }

  /** A happy-hour offer without a price is rejected at `happyHourPrice`. */
  lemma HappyHourWithoutPriceRejected(v: OfferFormValues)
    requires v.offerType == HappyHour && v.happyHourPrice.None?
    ensures ParseOffer(v).Failure? && HasIssueAt(ParseOffer(v).error, HappyHourPriceField)
  {
    HappyHourPriceRule(v);
  }

  /** After the schedule editor's reset the schema rejects the offer at `schedule.days`. */
  lemma ResetScheduleRejected(v: OfferFormValues)
    ensures ParseOffer(v.(schedule := CalendarSelector.ResetSchedule(v.schedule))).Failure?
    ensures HasIssueAt(OfferIssues(v.(schedule := CalendarSelector.ResetSchedule(v.schedule))), DaysField)
  {
    ScheduleRules(v.(schedule := CalendarSelector.ResetSchedule(v.schedule)));
  }
}
