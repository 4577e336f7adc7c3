/**
 * The establishment profile form (src/components/EstablishmentForm.tsx):
 * its validation schema, the weekly opening-hours defaults, and the default
 * values the form starts from.
 */
module EstablishmentForm {
  import opened Wrappers
  import opened Schema
  import Types

  /** The keys of the opening-hours record, in the order the `days` list gives them. */
  const DayKeys: seq<string> := ["monday", "tuesday", "wednesday", "thursday", "friday", "saturday", "sunday"]

  /** The record's keys are the weekdays' tags, in calendar order. */
  lemma DayKeysAreTags()
    ensures |DayKeys| == |Types.Week|
    ensures forall i :: 0 <= i < |DayKeys| ==> DayKeys[i] == Types.Tag(Types.Week[i])
  {
  }

  /** One day of the opening-hours record. */
  datatype DayHours = DayHours(closed: bool, open: string, close: string)

  /** One day as the caller may provide it: any of its fields can be missing. */
  datatype DayDraft = DayDraft(closed: Option<bool>, open: Option<string>, close: Option<string>)

  const DefaultOpen := "17:00"
  const DefaultClose := "23:30"

  /** The entry for `key` in the provided record, if there is a record and it has that key. */
  function Lookup(openings: Option<map<string, DayDraft>>, key: string): Option<DayDraft> {
    if openings.Some? && key in openings.value then Some(openings.value[key]) else None
  }

  /**
   * The reducer's entry for one day: provided fields are kept, a missing open
   * time is 17:00, a missing close time 23:30, and a missing `closed` flag is
   * set only for Sunday.
   */
  function FillDay(source: Option<DayDraft>, key: string): DayHours {
    var draft := source.GetOr(DayDraft(None, None, None));
    DayHours(draft.closed.GetOr(key == "sunday"), draft.open.GetOr(DefaultOpen), draft.close.GetOr(DefaultClose))
  }

  /** The record the reduction has built after visiting `keys` from left to right, starting from `{}`. */
  function Accumulate(openings: Option<map<string, DayDraft>>, keys: seq<string>): (r: map<string, DayHours>)
    ensures forall key :: key in r <==> key in keys
    decreases |keys|
  {
    if keys == [] then map[]
    else
      var key := keys[|keys| - 1];
      assert keys == keys[..|keys| - 1] + [key];
      Accumulate(openings, keys[..|keys| - 1])[key := FillDay(Lookup(openings, key), key)]
  }

  /** What `createOpeningHours` returns: the reduction over all seven days, one entry per weekday. */
  function OpeningHours(openings: Option<map<string, DayDraft>>): (r: map<string, DayHours>)
    ensures forall key :: key in r <==> key in DayKeys
  {
    Accumulate(openings, DayKeys)
  }

  /** `createOpeningHours`: one pass over the seven days, writing each day's entry into the accumulator. */
  method CreateOpeningHours(openings: Option<map<string, DayDraft>>) returns (acc: map<string, DayHours>)
    ensures acc == OpeningHours(openings)
  {
    acc := map[];
    for i := 0 to |DayKeys|
      invariant acc == Accumulate(openings, DayKeys[..i])
    {
      var key := DayKeys[i];
      assert DayKeys[..i + 1][..i] == DayKeys[..i];
      acc := acc[key := FillDay(Lookup(openings, key), key)];
    }
    assert DayKeys[..|DayKeys|] == DayKeys;
  }

  /** After the reduction over `keys`, exactly those keys are present, each with its filled entry. */
  lemma {:induction false} AccumulateAt(openings: Option<map<string, DayDraft>>, keys: seq<string>, key: string)
    ensures key in Accumulate(openings, keys) <==> key in keys
    ensures key in keys ==> Accumulate(openings, keys)[key] == FillDay(Lookup(openings, key), key)
    decreases |keys|
  {
    if keys != [] {
      var front := keys[..|keys| - 1];
      assert keys == front + [keys[|keys| - 1]];
      AccumulateAt(openings, front, key);
    }
  }

  /**
   * The opening hours always hold exactly the seven weekday keys, whatever
   * was provided: extra keys are dropped and missing days are filled in.
   */
  lemma OpeningHoursKeys(openings: Option<map<string, DayDraft>>, key: string)
    ensures key in OpeningHours(openings) <==> key in DayKeys
  {
    AccumulateAt(openings, DayKeys, key);
  }

  /** Each day keeps the fields provided for it and defaults the rest: 17:00, 23:30, closed only on Sunday. */
  lemma OpeningHoursDefaults(openings: Option<map<string, DayDraft>>, key: string)
    requires key in DayKeys
    ensures key in OpeningHours(openings)
    ensures var h := OpeningHours(openings)[key];
      var source := Lookup(openings, key);
      && h.open == (if source.Some? && source.value.open.Some? then source.value.open.value else "17:00")
      && h.close == (if source.Some? && source.value.close.Some? then source.value.close.value else "23:30")
      && h.closed == (if source.Some? && source.value.closed.Some? then source.value.closed.value else key == "sunday")
  {
    AccumulateAt(openings, DayKeys, key);
  }

  /** Without any provided hours, every day runs 17:00-23:30 and only Sunday is closed. */
  lemma NoOpeningsGivesDefaultWeek(key: string)
    requires key in DayKeys
    ensures key in OpeningHours(None)
    ensures OpeningHours(None)[key] == DayHours(key == "sunday", "17:00", "23:30")
  {
    AccumulateAt(None, DayKeys, key);
  }

  /** A complete record seen as provided input. */
  function AsDrafts(hours: map<string, DayHours>): map<string, DayDraft> {
    map key | key in hours :: DayDraft(Some(hours[key].closed), Some(hours[key].open), Some(hours[key].close))
  }

  /** Filling the opening hours a second time changes nothing. */
  lemma OpeningHoursIdempotent(openings: Option<map<string, DayDraft>>)
    ensures OpeningHours(Some(AsDrafts(OpeningHours(openings)))) == OpeningHours(openings)
  {
    var once := OpeningHours(openings);
    var twice := OpeningHours(Some(AsDrafts(once)));
    forall key
      ensures key in twice <==> key in once
      ensures key in once ==> twice[key] == once[key]
    {
      AccumulateAt(openings, DayKeys, key);
      AccumulateAt(Some(AsDrafts(once)), DayKeys, key);
    }
  }

  /** The values the schema validates. */
  datatype EstablishmentFormValues = EstablishmentFormValues(
    name: string,
    description: string,
    phone: string,
    email: string,
    addressLine1: string,
    addressLine2: Option<string>,
    postalCode: string,
    city: string,
    country: string,
    openingHours: map<string, DayHours>,
    photos: seq<string>)

  /** Partially provided values, the input of `createDefaults`. */
  datatype EstablishmentDraft = EstablishmentDraft(
    name: Option<string>,
    description: Option<string>,
    phone: Option<string>,
    email: Option<string>,
    addressLine1: Option<string>,
    addressLine2: Option<string>,
    postalCode: Option<string>,
    city: Option<string>,
    country: Option<string>,
    openingHours: Option<map<string, DayDraft>>,
    photos: Option<seq<string>>)

  const EmptyDraft: EstablishmentDraft := EstablishmentDraft(None, None, None, None, None, None, None, None, None, None, None)

  /**
   * `createDefaults`: text fields default to the empty string and the country
   * to "France"; the second address line is passed through as given; the
   * opening hours are filled day by day; a missing or empty photo list becomes
   * one empty entry, so that the form shows one photo input.
   */
  function CreateDefaults(values: EstablishmentDraft): (r: EstablishmentFormValues)
    ensures forall key :: key in r.openingHours <==> key in DayKeys
    ensures |r.photos| >= 1
  {
    EstablishmentFormValues(
      values.name.GetOr(""),
      values.description.GetOr(""),
      values.phone.GetOr(""),
      values.email.GetOr(""),
      values.addressLine1.GetOr(""),
      values.addressLine2,
      values.postalCode.GetOr(""),
      values.city.GetOr(""),
      values.country.GetOr("France"),
      OpeningHours(values.openingHours),
      if values.photos.Some? && |values.photos.value| > 0 then values.photos.value else [""])
  }

  /** Complete values seen as a draft in which every field is provided. */
  function AsDraft(v: EstablishmentFormValues): EstablishmentDraft {
    EstablishmentDraft(Some(v.name), Some(v.description), Some(v.phone), Some(v.email), Some(v.addressLine1),
                       v.addressLine2, Some(v.postalCode), Some(v.city), Some(v.country),
                       Some(AsDrafts(v.openingHours)), Some(v.photos))
  }

  /** Provided fields are kept and missing ones defaulted; the photo list is never empty. */
  lemma CreateDefaultsKeepsOrDefaults(values: EstablishmentDraft)
    ensures var v := CreateDefaults(values);
      && (values.name.Some? ==> v.name == values.name.value)
      && (values.name.None? ==> v.name == "")
      && v.description == (if values.description.Some? then values.description.value else "")
      && v.phone == (if values.phone.Some? then values.phone.value else "")
      && v.email == (if values.email.Some? then values.email.value else "")
      && v.addressLine1 == (if values.addressLine1.Some? then values.addressLine1.value else "")
      && v.postalCode == (if values.postalCode.Some? then values.postalCode.value else "")
      && v.city == (if values.city.Some? then values.city.value else "")
      && v.openingHours == OpeningHours(values.openingHours)
      && v.country == (if values.country.Some? then values.country.value else "France")
      && v.addressLine2 == values.addressLine2
      && (values.photos.Some? && values.photos.value != [] ==> v.photos == values.photos.value)
      && (values.photos.None? || values.photos.value == [] ==> v.photos == [""])
      && |v.photos| >= 1
  {
  }

  /** Filling the defaults twice changes nothing. */
  lemma CreateDefaultsIdempotent(values: EstablishmentDraft)
    ensures CreateDefaults(AsDraft(CreateDefaults(values))) == CreateDefaults(values)
  {
    OpeningHoursIdempotent(values.openingHours);
  }

  /** The fields of the form, as the schema reports issues at them. */
  datatype EstablishmentField =
    | NameField | DescriptionField | PhoneField | EmailField | AddressLine1Field
    | PostalCodeField | CityField | CountryField
    | OpenField(day: string) | CloseField(day: string)
    | PhotoField(index: nat) | PhotosField

  /** The issue path the validation library reports for a field. */
  function PathOf(f: EstablishmentField): seq<PathKey> {
    match f
    case NameField => [Key("name")]
    case DescriptionField => [Key("description")]
    case PhoneField => [Key("phone")]
    case EmailField => [Key("email")]
    case AddressLine1Field => [Key("addressLine1")]
    case PostalCodeField => [Key("postalCode")]
    case CityField => [Key("city")]
    case CountryField => [Key("country")]
    case OpenField(day) => [Key("openingHours"), Key(day), Key("open")]
    case CloseField(day) => [Key("openingHours"), Key(day), Key("close")]
    case PhotoField(i) => [Key("photos"), Index(i)]
    case PhotosField => [Key("photos")]
  }

  type EstablishmentIssue = Issue<EstablishmentField>

  /** The issue `{issue}` when `failed`, otherwise none. */
  function ReportSetIf(failed: bool, f: EstablishmentField, code: Code, message: string): set<EstablishmentIssue> {
    if failed then {Issue(f, code, Some(message))} else {}
  }

  /** The checks on the name, the description and the contact details. */
  function ContactIssues(v: EstablishmentFormValues, isEmail: string -> bool): set<EstablishmentIssue> {
    ReportSetIf(|v.name| < 2, NameField, TooSmall, "Nom requis")
    + ReportSetIf(|v.description| < 20, DescriptionField, TooSmall, "Ajoutez une description engageante")
    + ReportSetIf(|v.phone| < 6, PhoneField, TooSmall, "Téléphone invalide")
    + ReportSetIf(!isEmail(v.email), EmailField, InvalidString, "Email invalide")
  }

  /** The length checks on the address (the second address line has none). */
  function AddressIssues(v: EstablishmentFormValues): set<EstablishmentIssue> {
    ReportSetIf(|v.addressLine1| < 3, AddressLine1Field, TooSmall, "Adresse requise")
    + ReportSetIf(|v.postalCode| < 4, PostalCodeField, TooSmall, "Code postal invalide")
    + ReportSetIf(|v.city| < 2, CityField, TooSmall, "Ville requise")
    + ReportSetIf(|v.country| < 2, CountryField, TooSmall, "Pays requis")
  }

  /** The clock checks on every entry of the opening-hours record, whether or not the day is closed. */
  function HoursIssues(hours: map<string, DayHours>): set<EstablishmentIssue> {
    (set key | key in hours && !IsClockText(hours[key].open) :: Issue(OpenField(key), InvalidString, Some("Format HH:MM")))
    + (set key | key in hours && !IsClockText(hours[key].close) :: Issue(CloseField(key), InvalidString, Some("Format HH:MM")))
  }

  /** The URL check on each photo, and the lower bound on their number. */
  function PhotoIssues(photos: seq<string>, isUrl: string -> bool): set<EstablishmentIssue> {
    (set i: nat | i < |photos| && !isUrl(photos[i]) :: Issue(PhotoField(i), InvalidString, Some("URL invalide")))
    + ReportSetIf(|photos| < 1, PhotosField, TooSmall, "Ajoutez au moins une photo")
  }

  /**
   * Every issue the schema reports. The order of the opening-hours issues
   * follows the record's key order, which a map does not have, so the issues
   * form a set. `isEmail` and `isUrl` are the library's format checks.
   */
  function EstablishmentIssues(v: EstablishmentFormValues, isEmail: string -> bool, isUrl: string -> bool): set<EstablishmentIssue> {
    ContactIssues(v, isEmail) + AddressIssues(v) + HoursIssues(v.openingHours) + PhotoIssues(v.photos, isUrl)
  }

  /** Parsing: the values come back unchanged when no issue is found. */
  function ParseEstablishment(v: EstablishmentFormValues, isEmail: string -> bool, isUrl: string -> bool)
    : (r: Result<EstablishmentFormValues, set<EstablishmentIssue>>)
    ensures r.Success? ==> r.value == v
    ensures r.Failure? ==> r.error != {} && r.error == EstablishmentIssues(v, isEmail, isUrl)
  {
    var issues := EstablishmentIssues(v, isEmail, isUrl);
    if issues == {} then Success(v) else Failure(issues)
  }

  /** Whether some issue is reported at `f`. */
  predicate ReportedAt(issues: set<EstablishmentIssue>, f: EstablishmentField) {
    exists issue :: issue in issues && issue.path == f
  }

  /** The rule about field `f` that `v` breaks, stated field by field without reference to the schema. */
  predicate Breaks(v: EstablishmentFormValues, isEmail: string -> bool, isUrl: string -> bool, f: EstablishmentField) {
    match f
    case NameField => |v.name| < 2
    case DescriptionField => |v.description| < 20
    case PhoneField => |v.phone| < 6
    case EmailField => !isEmail(v.email)
    case AddressLine1Field => |v.addressLine1| < 3
    case PostalCodeField => |v.postalCode| < 4
    case CityField => |v.city| < 2
    case CountryField => |v.country| < 2
    case OpenField(day) => day in v.openingHours && !IsClockText(v.openingHours[day].open)
    case CloseField(day) => day in v.openingHours && !IsClockText(v.openingHours[day].close)
    case PhotoField(i) => i < |v.photos| && !isUrl(v.photos[i])
    case PhotosField => v.photos == []
  }

  /** Values that break none of the rules. */
  predicate Acceptable(v: EstablishmentFormValues, isEmail: string -> bool, isUrl: string -> bool) {
    && |v.name| >= 2
    && |v.description| >= 20
    && |v.phone| >= 6
    && isEmail(v.email)
    && |v.addressLine1| >= 3
    && |v.postalCode| >= 4
    && |v.city| >= 2
    && |v.country| >= 2
    && (forall day :: day in v.openingHours ==> IsClockText(v.openingHours[day].open) && IsClockText(v.openingHours[day].close))
    && (forall i :: 0 <= i < |v.photos| ==> isUrl(v.photos[i]))
    && |v.photos| >= 1
  }

  lemma ReportSetIfAt(failed: bool, at: EstablishmentField, code: Code, message: string, f: EstablishmentField)
    ensures ReportedAt(ReportSetIf(failed, at, code, message), f) <==> failed && at == f
  {
    if failed && at == f {
      assert Issue(at, code, Some(message)) in ReportSetIf(failed, at, code, message);
    }
  }

  lemma ReportedAtUnion(a: set<EstablishmentIssue>, b: set<EstablishmentIssue>, f: EstablishmentField)
    ensures ReportedAt(a + b, f) <==> ReportedAt(a, f) || ReportedAt(b, f)
  {
    if ReportedAt(a + b, f) {
      var issue :| issue in a + b && issue.path == f;
      assert issue in a || issue in b;
    }
    if ReportedAt(a, f) {
      var issue :| issue in a && issue.path == f;
      assert issue in a + b;
    }
    if ReportedAt(b, f) {
      var issue :| issue in b && issue.path == f;
      assert issue in a + b;
    }
  }

  lemma ContactIssuesAt(v: EstablishmentFormValues, isEmail: string -> bool, isUrl: string -> bool, f: EstablishmentField)
    ensures ReportedAt(ContactIssues(v, isEmail), f) <==>
      (f == NameField || f == DescriptionField || f == PhoneField || f == EmailField) && Breaks(v, isEmail, isUrl, f)
  {
    var name := ReportSetIf(|v.name| < 2, NameField, TooSmall, "Nom requis");
    var description := ReportSetIf(|v.description| < 20, DescriptionField, TooSmall, "Ajoutez une description engageante");
    var phone := ReportSetIf(|v.phone| < 6, PhoneField, TooSmall, "Téléphone invalide");
    var email := ReportSetIf(!isEmail(v.email), EmailField, InvalidString, "Email invalide");
    ReportedAtUnion(name + description + phone, email, f);
    ReportedAtUnion(name + description, phone, f);
    ReportedAtUnion(name, description, f);
    ReportSetIfAt(|v.name| < 2, NameField, TooSmall, "Nom requis", f);
    ReportSetIfAt(|v.description| < 20, DescriptionField, TooSmall, "Ajoutez une description engageante", f);
    ReportSetIfAt(|v.phone| < 6, PhoneField, TooSmall, "Téléphone invalide", f);
    ReportSetIfAt(!isEmail(v.email), EmailField, InvalidString, "Email invalide", f);
  }

  lemma AddressIssuesAt(v: EstablishmentFormValues, isEmail: string -> bool, isUrl: string -> bool, f: EstablishmentField)
    ensures ReportedAt(AddressIssues(v), f) <==>
      (f == AddressLine1Field || f == PostalCodeField || f == CityField || f == CountryField) && Breaks(v, isEmail, isUrl, f)
  {
    var line1 := ReportSetIf(|v.addressLine1| < 3, AddressLine1Field, TooSmall, "Adresse requise");
    var postal := ReportSetIf(|v.postalCode| < 4, PostalCodeField, TooSmall, "Code postal invalide");
    var city := ReportSetIf(|v.city| < 2, CityField, TooSmall, "Ville requise");
    var country := ReportSetIf(|v.country| < 2, CountryField, TooSmall, "Pays requis");
    ReportedAtUnion(line1 + postal + city, country, f);
    ReportedAtUnion(line1 + postal, city, f);
    ReportedAtUnion(line1, postal, f);
    ReportSetIfAt(|v.addressLine1| < 3, AddressLine1Field, TooSmall, "Adresse requise", f);
    ReportSetIfAt(|v.postalCode| < 4, PostalCodeField, TooSmall, "Code postal invalide", f);
    ReportSetIfAt(|v.city| < 2, CityField, TooSmall, "Ville requise", f);
    ReportSetIfAt(|v.country| < 2, CountryField, TooSmall, "Pays requis", f);
  }

  /** The opening-hours checks report at a field exactly when it is a day's time whose rule is broken. */
  lemma HoursIssuesAt(v: EstablishmentFormValues, isEmail: string -> bool, isUrl: string -> bool, f: EstablishmentField)
    ensures ReportedAt(HoursIssues(v.openingHours), f) <==> (f.OpenField? || f.CloseField?) && Breaks(v, isEmail, isUrl, f)
  {
    var hours := v.openingHours;
    var opens := set key | key in hours && !IsClockText(hours[key].open) :: Issue(OpenField(key), InvalidString, Some("Format HH:MM"));
    var closes := set key | key in hours && !IsClockText(hours[key].close) :: Issue(CloseField(key), InvalidString, Some("Format HH:MM"));
    ReportedAtUnion(opens, closes, f);
    if (f.OpenField? || f.CloseField?) && Breaks(v, isEmail, isUrl, f) {
      if f.OpenField? {
        assert Issue(f, InvalidString, Some("Format HH:MM")) in opens;
      } else {
        assert Issue(f, InvalidString, Some("Format HH:MM")) in closes;
      }
    }
  }

  /** The photo checks report at a field exactly when it is a photo entry or the list whose rule is broken. */
  lemma PhotoIssuesAt(v: EstablishmentFormValues, isEmail: string -> bool, isUrl: string -> bool, f: EstablishmentField)
    ensures ReportedAt(PhotoIssues(v.photos, isUrl), f) <==> (f.PhotoField? || f.PhotosField?) && Breaks(v, isEmail, isUrl, f)
  {
    var entries := set i: nat | i < |v.photos| && !isUrl(v.photos[i]) :: Issue(PhotoField(i), InvalidString, Some("URL invalide"));
    ReportedAtUnion(entries, ReportSetIf(|v.photos| < 1, PhotosField, TooSmall, "Ajoutez au moins une photo"), f);
    ReportSetIfAt(|v.photos| < 1, PhotosField, TooSmall, "Ajoutez au moins une photo", f);
    if f.PhotoField? && Breaks(v, isEmail, isUrl, f) {
      assert Issue(f, InvalidString, Some("URL invalide")) in entries;
    }
  }

  /** The schema reports an issue at a field exactly when the values break that field's rule. */
  lemma ReportedExactlyWhenBroken(v: EstablishmentFormValues, isEmail: string -> bool, isUrl: string -> bool, f: EstablishmentField)
    ensures ReportedAt(EstablishmentIssues(v, isEmail, isUrl), f) <==> Breaks(v, isEmail, isUrl, f)
  {
    var contact := ContactIssues(v, isEmail);
    var address := AddressIssues(v);
    ReportedAtUnion(contact + address + HoursIssues(v.openingHours), PhotoIssues(v.photos, isUrl), f);
    ReportedAtUnion(contact + address, HoursIssues(v.openingHours), f);
    ReportedAtUnion(contact, address, f);
    ContactIssuesAt(v, isEmail, isUrl, f);
    AddressIssuesAt(v, isEmail, isUrl, f);
    HoursIssuesAt(v, isEmail, isUrl, f);
    PhotoIssuesAt(v, isEmail, isUrl, f);
  }

  /** The declarative rules hold exactly when no field's rule is broken. */
  lemma AcceptableIffNothingBroken(v: EstablishmentFormValues, isEmail: string -> bool, isUrl: string -> bool)
    ensures Acceptable(v, isEmail, isUrl) <==> forall f :: !Breaks(v, isEmail, isUrl, f)
  {
    if !Acceptable(v, isEmail, isUrl) {
      if exists day :: day in v.openingHours && !IsClockText(v.openingHours[day].open) {
        var day :| day in v.openingHours && !IsClockText(v.openingHours[day].open);
        assert Breaks(v, isEmail, isUrl, OpenField(day));
      } else if exists day :: day in v.openingHours && !IsClockText(v.openingHours[day].close) {
        var day :| day in v.openingHours && !IsClockText(v.openingHours[day].close);
        assert Breaks(v, isEmail, isUrl, CloseField(day));
      } else if exists i :: 0 <= i < |v.photos| && !isUrl(v.photos[i]) {
        var i :| 0 <= i < |v.photos| && !isUrl(v.photos[i]);
        assert Breaks(v, isEmail, isUrl, PhotoField(i));
      } else {
        var broken :| broken in {NameField, DescriptionField, PhoneField, EmailField, AddressLine1Field,
                                 PostalCodeField, CityField, CountryField, PhotosField} && Breaks(v, isEmail, isUrl, broken);
      }
    }
  }

  /** The schema accepts exactly the values that follow every rule. */
  lemma ParseAcceptsExactlyAcceptable(v: EstablishmentFormValues, isEmail: string -> bool, isUrl: string -> bool)
    ensures ParseEstablishment(v, isEmail, isUrl).Success? <==> Acceptable(v, isEmail, isUrl)
  {
    var issues := EstablishmentIssues(v, isEmail, isUrl);
    AcceptableIffNothingBroken(v, isEmail, isUrl);
    if issues != {} {
      var issue :| issue in issues;
      ReportedExactlyWhenBroken(v, isEmail, isUrl, issue.path);
    }
    if !Acceptable(v, isEmail, isUrl) {
      var broken :| Breaks(v, isEmail, isUrl, broken);
      ReportedExactlyWhenBroken(v, isEmail, isUrl, broken);
    }
  }

  /** The minimum lengths: name 2, description 20, phone 6, first address line 3, postal code 4, city 2, country 2. */
  lemma TextLengthRules(v: EstablishmentFormValues, isEmail: string -> bool, isUrl: string -> bool)
    ensures var issues := EstablishmentIssues(v, isEmail, isUrl);
      && (ReportedAt(issues, NameField) <==> |v.name| < 2)
      && (ReportedAt(issues, DescriptionField) <==> |v.description| < 20)
      && (ReportedAt(issues, PhoneField) <==> |v.phone| < 6)
      && (ReportedAt(issues, AddressLine1Field) <==> |v.addressLine1| < 3)
      && (ReportedAt(issues, PostalCodeField) <==> |v.postalCode| < 4)
      && (ReportedAt(issues, CityField) <==> |v.city| < 2)
      && (ReportedAt(issues, CountryField) <==> |v.country| < 2)
  {
    ReportedExactlyWhenBroken(v, isEmail, isUrl, NameField);
    ReportedExactlyWhenBroken(v, isEmail, isUrl, DescriptionField);
    ReportedExactlyWhenBroken(v, isEmail, isUrl, PhoneField);
    ReportedExactlyWhenBroken(v, isEmail, isUrl, AddressLine1Field);
    ReportedExactlyWhenBroken(v, isEmail, isUrl, PostalCodeField);
    ReportedExactlyWhenBroken(v, isEmail, isUrl, CityField);
    ReportedExactlyWhenBroken(v, isEmail, isUrl, CountryField);
  }

  lemma UnfoldHoursRules(v: EstablishmentFormValues, isEmail: string -> bool, isUrl: string -> bool, day: string)
    ensures Breaks(v, isEmail, isUrl, OpenField(day)) <==> day in v.openingHours && !IsClockText(v.openingHours[day].open)
    ensures Breaks(v, isEmail, isUrl, CloseField(day)) <==> day in v.openingHours && !IsClockText(v.openingHours[day].close)
  {
  }

  lemma UnfoldPhotoRules(v: EstablishmentFormValues, isEmail: string -> bool, isUrl: string -> bool, i: nat)
    ensures Breaks(v, isEmail, isUrl, PhotoField(i)) <==> i < |v.photos| && !isUrl(v.photos[i])
    ensures Breaks(v, isEmail, isUrl, PhotosField) <==> v.photos == []
  {
  }

  /** Each listed day's open and close times must have the HH:MM shape; days not listed are not checked. */
  lemma HoursRules(v: EstablishmentFormValues, isEmail: string -> bool, isUrl: string -> bool, day: string)
    ensures ReportedAt(EstablishmentIssues(v, isEmail, isUrl), OpenField(day)) <==>
      day in v.openingHours && !IsClockText(v.openingHours[day].open)
    ensures ReportedAt(EstablishmentIssues(v, isEmail, isUrl), CloseField(day)) <==>
      day in v.openingHours && !IsClockText(v.openingHours[day].close)
  {
    ReportedExactlyWhenBroken(v, isEmail, isUrl, OpenField(day));
    ReportedExactlyWhenBroken(v, isEmail, isUrl, CloseField(day));
    UnfoldHoursRules(v, isEmail, isUrl, day);
  }

  /** Both times of a day must have the HH:MM shape even when the day is marked closed. */
  lemma ClosedDayTimesStillChecked(v: EstablishmentFormValues, isEmail: string -> bool, isUrl: string -> bool, day: string)
    requires day in v.openingHours && v.openingHours[day].closed
    ensures ReportedAt(EstablishmentIssues(v, isEmail, isUrl), OpenField(day)) <==> !IsClockText(v.openingHours[day].open)
    ensures ReportedAt(EstablishmentIssues(v, isEmail, isUrl), CloseField(day)) <==> !IsClockText(v.openingHours[day].close)
    ensures PathOf(OpenField(day)) == [Key("openingHours"), Key(day), Key("open")]
  {
    HoursRules(v, isEmail, isUrl, day);
  }

  /** Each photo must be a URL, and at least one photo is required. */
  lemma PhotoRules(v: EstablishmentFormValues, isEmail: string -> bool, isUrl: string -> bool, i: nat)
    ensures ReportedAt(EstablishmentIssues(v, isEmail, isUrl), PhotoField(i)) <==> i < |v.photos| && !isUrl(v.photos[i])
    ensures ReportedAt(EstablishmentIssues(v, isEmail, isUrl), PhotosField) <==> v.photos == []
    ensures PathOf(PhotoField(i)) == [Key("photos"), Index(i)]
  {
    ReportedExactlyWhenBroken(v, isEmail, isUrl, PhotoField(i));
    ReportedExactlyWhenBroken(v, isEmail, isUrl, PhotosField);
    UnfoldPhotoRules(v, isEmail, isUrl, i);
  }

  /** When no opening hours are provided, the filled week passes every clock check. */
  lemma DefaultHoursPass(values: EstablishmentDraft, isEmail: string -> bool, isUrl: string -> bool)
    requires values.openingHours.None?
    ensures forall day ::
      && !ReportedAt(EstablishmentIssues(CreateDefaults(values), isEmail, isUrl), OpenField(day))
      && !ReportedAt(EstablishmentIssues(CreateDefaults(values), isEmail, isUrl), CloseField(day))
  {
    var v := CreateDefaults(values);
    forall day
      ensures !ReportedAt(EstablishmentIssues(v, isEmail, isUrl), OpenField(day))
      ensures !ReportedAt(EstablishmentIssues(v, isEmail, isUrl), CloseField(day))
    {
      HoursRules(v, isEmail, isUrl, day);
      OpeningHoursKeys(None, day);
      if day in DayKeys {
        NoOpeningsGivesDefaultWeek(day);
        assert IsClockText("17:00") && IsClockText("23:30");
      }
    }
  }

  /**
   * The defaults of an empty form are rejected, at the empty name and at the
   * single blank photo, but never at the number of photos or the country.
   */
  lemma EmptyFormRejected(isEmail: string -> bool, isUrl: string -> bool)
    requires !isUrl("")
    ensures var v := CreateDefaults(EmptyDraft);
      var issues := EstablishmentIssues(v, isEmail, isUrl);
      && ParseEstablishment(v, isEmail, isUrl).Failure?
      && ReportedAt(issues, NameField)
      && ReportedAt(issues, PhotoField(0))
      && !ReportedAt(issues, PhotosField)
      && !ReportedAt(issues, CountryField)
  {
    var v := CreateDefaults(EmptyDraft);
    ReportedExactlyWhenBroken(v, isEmail, isUrl, NameField);
    ReportedExactlyWhenBroken(v, isEmail, isUrl, CountryField);
    PhotoRules(v, isEmail, isUrl, 0);
  }
}
