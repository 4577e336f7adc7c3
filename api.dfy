/**
 * The in-memory stand-in for the back end (src/lib/api.ts): one mutable
 * database of the signed-in partner, their establishment and offers, and the
 * dashboard statistics, behind the auth, establishment, offers and dashboard
 * endpoints. Random identifier suffixes and the clock are parameters.
 */
module Api {
  import opened Wrappers
  import opened Types
  import opened Sequences

  /** `generateId(prefix)`: the prefix, an underscore, then a random suffix supplied by the caller. */
  function GenerateId(prefix: string, suffix: string): (r: string)
    ensures |r| == |prefix| + 1 + |suffix|
    ensures r[..|prefix|] == prefix && r[|prefix|] == '_'
    ensures r[|prefix| + 1..] == suffix
  {
    prefix + "_" + suffix
  }

  /** The random suffixes one registration draws: for the partner, the establishment and the two tokens. */
  datatype RegisterSuffixes = RegisterSuffixes(partner: string, establishment: string, token: string, refresh: string)

  /** The errors the endpoints throw. */
  datatype ApiError = SessionExpired | InvalidCredentials | EstablishmentNotFound | OfferNotFound {
    function Message(): string {
      match this
      case SessionExpired => "Session expirée, veuillez vous reconnecter."
      case InvalidCredentials => "Identifiants incorrects"
      case EstablishmentNotFound => "Établissement introuvable"
      case OfferNotFound => "Offre introuvable"
    }
  }

  const InitialEstablishment: Establishment := Establishment(
    "est_001",
    "Le Comptoir Mapéro",
    "Bar à vins & tapas convivial spécialisé dans les sélections locales et les accords apéritifs.",
    "+33 1 42 00 00 00",
    "contact@comptoirmapero.fr",
    EstablishmentAddress("12 rue des Apéros", Some("Quartier Oberkampf"), "75011", "Paris", "France"),
    [ OpeningDay(Monday, [OpeningSlot("17:00", "23:30")]),
      OpeningDay(Tuesday, [OpeningSlot("17:00", "23:30")]),
      OpeningDay(Wednesday, [OpeningSlot("12:00", "14:30"), OpeningSlot("17:00", "00:30")]),
      OpeningDay(Thursday, [OpeningSlot("12:00", "14:30"), OpeningSlot("17:00", "01:00")]),
      OpeningDay(Friday, [OpeningSlot("12:00", "14:30"), OpeningSlot("17:00", "02:00")]),
      OpeningDay(Saturday, [OpeningSlot("15:00", "02:00")]),
      OpeningDay(Sunday, []) ],
    [ "https://images.unsplash.com/photo-1414235077428-338989a2e8c0",
      "https://images.unsplash.com/photo-1437419764061-2473afe69fc2" ],
    "2023-01-12T00:00:00.000Z",
    "2024-01-02T00:00:00.000Z")

  /** The three seeded offers; validity dates are day numbers (2024-09-01 is day 19967). */
  const InitialOffers: seq<Offer> := [
    Offer("offer_001", "est_001", "-30% sur les planches à partager",
          "Réduction appliquée sur toutes les planches apéritives avant 20h.",
          Percentage, Some(30.0), None, None,
          OfferSchedule([Wednesday, Thursday, Friday], "17:00", "20:00"),
          OfferValidity(19967, 20088), true,
          "2024-06-01T00:00:00.000Z", "2024-08-15T00:00:00.000Z"),
    Offer("offer_002", "est_001", "Happy hour cocktails signatures",
          "Cocktails signatures à 9€ au lieu de 13€ sur le créneau Happy Hour.",
          HappyHour, None, None, Some(9.0),
          OfferSchedule([Tuesday, Wednesday, Thursday], "18:00", "19:30"),
          OfferValidity(19936, 20011), true,
          "2024-07-10T00:00:00.000Z", "2024-08-10T00:00:00.000Z"),
    Offer("offer_003", "est_001", "1 verre de bulles offert",
          "Un verre de bulles offert pour tout groupe de 4 personnes et plus.",
          Special, None, Some("1 verre offert à l’arrivée du groupe"), None,
          OfferSchedule([Friday, Saturday], "18:30", "22:00"),
          OfferValidity(19981, 20057), false,
          "2024-08-20T00:00:00.000Z", "2024-09-05T00:00:00.000Z")
  ]

  const InitialUser: PartnerUser := PartnerUser(
    "partner_001", "partner@mapero.fr", "Julie", "Morel", "est_001",
    Some("https://images.unsplash.com/photo-1524504388940-b1c1722653e1"),
    "2023-01-01T00:00:00.000Z")

  const InitialTokens: AuthTokens := AuthTokens("mock-token", Some("mock-refresh"))

  const InitialTrend: seq<TrendPoint> := [
    TrendPoint("L", 74), TrendPoint("M", 96), TrendPoint("M", 132), TrendPoint("J", 160),
    TrendPoint("V", 210), TrendPoint("S", 118), TrendPoint("D", 52)
  ]

  /** The test the active-offer count filters with: the offer is switched on. */
  function IsActive(o: Offer): bool {
    o.isActive
  }

  /** How many offers are switched on, counted by filtering as the endpoints do. */
  function ActiveCount(offers: seq<Offer>): nat {
    |Filter(offers, IsActive)|
  }

  /** The lookup test: the offer carries this id. */
  function HasId(id: string): Offer -> bool {
    (o: Offer) => o.id == id
  }

  /** The deletion test: the offer carries another id. */
  function IdIsNot(id: string): Offer -> bool {
    (o: Offer) => o.id != id
  }

  /** The fields of a new offer the caller supplies; the id and both timestamps are added by the endpoint. */
  datatype OfferPayload = OfferPayload(
    establishmentId: string,
    title: string,
    description: string,
    offerType: OfferType,
    percentage: Option<real>,
    specialText: Option<string>,
    happyHourPrice: Option<real>,
    schedule: OfferSchedule,
    validity: OfferValidity,
    isActive: bool)

  /** The offer `createOffer` builds from a payload. */
  function NewOffer(payload: OfferPayload, id: string, now: Timestamp): Offer {
    Offer(id, payload.establishmentId, payload.title, payload.description, payload.offerType,
          payload.percentage, payload.specialText, payload.happyHourPrice, payload.schedule,
          payload.validity, payload.isActive, now, now)
  }

  /**
   * A partial offer: `None` leaves a field as it is. For the optional fields,
   * `Some(None)` is a key present with no value, which clears the field.
   */
  datatype OfferPatch = OfferPatch(
    id: Option<string>,
    establishmentId: Option<string>,
    title: Option<string>,
    description: Option<string>,
    offerType: Option<OfferType>,
    percentage: Option<Option<real>>,
    specialText: Option<Option<string>>,
    happyHourPrice: Option<Option<real>>,
    schedule: Option<OfferSchedule>,
    validity: Option<OfferValidity>,
    isActive: Option<bool>,
    createdAt: Option<Timestamp>,
    updatedAt: Option<Timestamp>)

  const EmptyOfferPatch: OfferPatch := OfferPatch(None, None, None, None, None, None, None, None, None, None, None, None, None)

  /** The patch the offers list sends to switch an offer on or off. */
  function ActivationPatch(isActive: bool): OfferPatch {
    EmptyOfferPatch.(isActive := Some(isActive))
  }

  /** The shallow merge of a patch over an offer, with `updatedAt` set to the new time whatever the patch says. */
  function ApplyOfferPatch(o: Offer, patch: OfferPatch, now: Timestamp): (r: Offer)
    ensures r.updatedAt == now
    ensures patch.id.None? ==> r.id == o.id
    ensures patch == EmptyOfferPatch ==> r == o.(updatedAt := now)
  {
    Offer(
      patch.id.GetOr(o.id),
      patch.establishmentId.GetOr(o.establishmentId),
      patch.title.GetOr(o.title),
      patch.description.GetOr(o.description),
      patch.offerType.GetOr(o.offerType),
      patch.percentage.GetOr(o.percentage),
      patch.specialText.GetOr(o.specialText),
      patch.happyHourPrice.GetOr(o.happyHourPrice),
      patch.schedule.GetOr(o.schedule),
      patch.validity.GetOr(o.validity),
      patch.isActive.GetOr(o.isActive),
      patch.createdAt.GetOr(o.createdAt),
      now)
  }

  /** The fields of a new establishment the caller supplies. */
  datatype EstablishmentPayload = EstablishmentPayload(
    name: string,
    description: string,
    phone: string,
    email: string,
    address: EstablishmentAddress,
    openingHours: seq<OpeningDay>,
    photos: seq<string>)

  /** A partial establishment; the address, hours and photos are replaced whole, as a shallow merge does. */
  datatype EstablishmentPatch = EstablishmentPatch(
    id: Option<string>,
    name: Option<string>,
    description: Option<string>,
    phone: Option<string>,
    email: Option<string>,
    address: Option<EstablishmentAddress>,
    openingHours: Option<seq<OpeningDay>>,
    photos: Option<seq<string>>,
    createdAt: Option<Timestamp>,
    updatedAt: Option<Timestamp>)

  /** The shallow merge of a patch over an establishment, with `updatedAt` set to the new time. */
  function ApplyEstablishmentPatch(e: Establishment, patch: EstablishmentPatch, now: Timestamp): (r: Establishment)
    ensures r.updatedAt == now
    ensures patch.id.None? ==> r.id == e.id
    ensures patch == EstablishmentPatch(None, None, None, None, None, None, None, None, None, None) ==> r == e.(updatedAt := now)
  {
    Establishment(
      patch.id.GetOr(e.id),
      patch.name.GetOr(e.name),
      patch.description.GetOr(e.description),
      patch.phone.GetOr(e.phone),
      patch.email.GetOr(e.email),
      patch.address.GetOr(e.address),
      patch.openingHours.GetOr(e.openingHours),
      patch.photos.GetOr(e.photos),
      patch.createdAt.GetOr(e.createdAt),
      now)
  }

  /** The establishment a registration creates when there is none: the seeded one, renamed and re-addressed. */
  function RegisteredEstablishment(id: string, payload: RegisterPayload): (r: Establishment)
    ensures r.id == id && r.name == payload.establishmentName && r.email == payload.email
    ensures r.(id := InitialEstablishment.id, name := InitialEstablishment.name, email := InitialEstablishment.email) == InitialEstablishment
  {
    InitialEstablishment.(id := id, name := payload.establishmentName, email := payload.email)
  }

  /** The shared mock database `mockDb`. */
  class MockDatabase {
    var user: PartnerUser
    var tokens: AuthTokens
    var establishment: Option<Establishment>
    var offers: seq<Offer>
    var stats: StatsOverview

    /** The dashboard's active-offer count always equals the number of active offers. */
    predicate Valid()
      reads this
    {
      stats.activeOffers == ActiveCount(offers)
    }

    /** `ensureAuthenticated` passes: the session token is not the empty string. */
    predicate Authenticated()
      reads this
    {
      tokens.token != ""
    }

    /** The seeded state: Julie Morel signed in, the Comptoir Mapéro and its three offers. */
    constructor()
      ensures Valid() && Authenticated()
      ensures user == InitialUser && tokens == InitialTokens
      ensures establishment == Some(InitialEstablishment) && offers == InitialOffers
      ensures stats == StatsOverview(842, 1342, 376, ActiveCount(InitialOffers), InitialTrend)
    {
      user := InitialUser;
      tokens := InitialTokens;
      establishment := Some(InitialEstablishment);
      offers := InitialOffers;
      stats := StatsOverview(842, 1342, 376, ActiveCount(InitialOffers), InitialTrend);
    }

    /**
     * `authApi.register`: no session is needed. A new partner is signed in with
     * fresh tokens; they are attached to the existing establishment, or, when
     * there is none, to a new copy of the seeded one carrying their
     * establishment name and email.
     */
    method Register(payload: RegisterPayload, suffixes: RegisterSuffixes, now: Timestamp) returns (r: AuthResponse)
      requires Valid()
      modifies this
      ensures Valid() && Authenticated()
      ensures user == PartnerUser(
        GenerateId("partner", suffixes.partner), payload.email, payload.firstName, payload.lastName,
        if old(establishment).Some? then old(establishment).value.id else GenerateId("est", suffixes.establishment),
        None, now)
      ensures tokens == AuthTokens(GenerateId("token", suffixes.token), Some(GenerateId("refresh", suffixes.refresh)))
      ensures old(establishment).Some? ==> establishment == old(establishment)
      ensures old(establishment).None? ==> establishment == Some(RegisteredEstablishment(user.establishmentId, payload))
      ensures offers == old(offers) && stats == old(stats)
      ensures r == AuthResponse(user, tokens)
    {
      var establishmentId := if establishment.Some? then establishment.value.id else GenerateId("est", suffixes.establishment);
      user := PartnerUser(GenerateId("partner", suffixes.partner), payload.email, payload.firstName, payload.lastName,
                          establishmentId, None, now);
      tokens := AuthTokens(GenerateId("token", suffixes.token), Some(GenerateId("refresh", suffixes.refresh)));
      if establishment.None? {
        establishment := Some(RegisteredEstablishment(user.establishmentId, payload));
      }
      r := AuthResponse(user, tokens);
    }

    /**
     * `authApi.login`: only the email is compared with the registered
     * partner's; the password is not checked. On a match the session gets
     * fresh tokens; otherwise nothing changes.
     */
    method Login(payload: LoginPayload, tokenSuffix: string, refreshSuffix: string) returns (r: Result<AuthResponse, ApiError>)
      requires Valid()
      modifies this
      ensures Valid()
      ensures payload.email != old(user.email) ==> r == Failure(InvalidCredentials) && unchanged(this)
      ensures payload.email == old(user.email) ==>
        && tokens == AuthTokens(GenerateId("token", tokenSuffix), Some(GenerateId("refresh", refreshSuffix)))
        && Authenticated()
        && r == Success(AuthResponse(user, tokens))
      ensures user == old(user) && establishment == old(establishment) && offers == old(offers) && stats == old(stats)
    {
      if payload.email != user.email {
        return Failure(InvalidCredentials);
      }
      tokens := AuthTokens(GenerateId("token", tokenSuffix), Some(GenerateId("refresh", refreshSuffix)));
      r := Success(AuthResponse(user, tokens));
    }

    /** `authApi.logout`: both tokens become empty, which ends the session. */
    method Logout()
      requires Valid()
      modifies this
      ensures Valid() && !Authenticated()
      ensures tokens == AuthTokens("", Some(""))
      ensures user == old(user) && establishment == old(establishment) && offers == old(offers) && stats == old(stats)
    {
      tokens := AuthTokens("", Some(""));
    }

    /** `authApi.me`: the signed-in partner. */
    method Me() returns (r: Result<PartnerUser, ApiError>)
      ensures Authenticated() ==> r == Success(user)
      ensures !Authenticated() ==> r == Failure(SessionExpired)
    {
      if !Authenticated() {
        return Failure(SessionExpired);
      }
      r := Success(user);
    }

    /** `establishmentApi.getEstablishment`: the establishment, or none. */
    method GetEstablishment() returns (r: Result<Option<Establishment>, ApiError>)
      ensures Authenticated() ==> r == Success(establishment)
      ensures !Authenticated() ==> r == Failure(SessionExpired)
    {
      if !Authenticated() {
        return Failure(SessionExpired);
      }
      r := Success(establishment);
    }

    /**
     * `establishmentApi.createEstablishment`: replaces any establishment with a
     * new one under a fresh id, created and updated now. The partner's
     * `establishmentId` is left as it was.
     */
    method CreateEstablishment(payload: EstablishmentPayload, suffix: string, now: Timestamp) returns (r: Result<Establishment, ApiError>)
      requires Valid()
      modifies this
      ensures Valid()
      ensures !old(Authenticated()) ==> r == Failure(SessionExpired) && unchanged(this)
      ensures old(Authenticated()) ==>
        && establishment == Some(Establishment(GenerateId("est", suffix), payload.name, payload.description, payload.phone,
                                               payload.email, payload.address, payload.openingHours, payload.photos, now, now))
        && r == Success(establishment.value)
      ensures user == old(user) && tokens == old(tokens) && offers == old(offers) && stats == old(stats)
    {
      if !Authenticated() {
        return Failure(SessionExpired);
      }
      establishment := Some(Establishment(GenerateId("est", suffix), payload.name, payload.description, payload.phone,
                                          payload.email, payload.address, payload.openingHours, payload.photos, now, now));
      r := Success(establishment.value);
    }

    /**
     * `establishmentApi.updateEstablishment`: fails unless an establishment
     * with this id exists; otherwise merges the patch over it and stamps it.
     */
    method UpdateEstablishment(id: string, patch: EstablishmentPatch, now: Timestamp) returns (r: Result<Establishment, ApiError>)
      requires Valid()
      modifies this
      ensures Valid()
      ensures !old(Authenticated()) ==> r == Failure(SessionExpired) && unchanged(this)
      ensures old(Authenticated()) && (old(establishment).None? || old(establishment).value.id != id) ==>
        r == Failure(EstablishmentNotFound) && unchanged(this)
      ensures old(Authenticated()) && old(establishment).Some? && old(establishment).value.id == id ==>
        && establishment == Some(ApplyEstablishmentPatch(old(establishment).value, patch, now))
        && r == Success(establishment.value)
      ensures user == old(user) && tokens == old(tokens) && offers == old(offers) && stats == old(stats)
    {
      if !Authenticated() {
        return Failure(SessionExpired);
      }
      if establishment.None? || establishment.value.id != id {
        return Failure(EstablishmentNotFound);
      }
      establishment := Some(ApplyEstablishmentPatch(establishment.value, patch, now));
      r := Success(establishment.value);
    }

    /** `establishmentApi.deleteEstablishment`: clears the establishment only when the id matches; any other id is ignored. */
    method DeleteEstablishment(id: string) returns (r: Result<(), ApiError>)
      requires Valid()
      modifies this
      ensures Valid()
      ensures !old(Authenticated()) ==> r == Failure(SessionExpired) && unchanged(this)
      ensures old(Authenticated()) ==> r == Success(())
      ensures old(Authenticated()) && old(establishment).Some? && old(establishment).value.id == id ==> establishment.None?
      ensures !(old(establishment).Some? && old(establishment).value.id == id) ==> establishment == old(establishment)
      ensures user == old(user) && tokens == old(tokens) && offers == old(offers) && stats == old(stats)
    {
      if !Authenticated() {
        return Failure(SessionExpired);
      }
      if establishment.Some? && establishment.value.id == id {
        establishment := None;
      }
      r := Success(());
    }

    /** `offersApi.listOffers`: every offer, in order, with their number. */
    method ListOffers() returns (r: Result<ListResponse<Offer>, ApiError>)
      ensures Authenticated() ==> r.Success? && r.value.data == offers && r.value.total == |r.value.data|
      ensures !Authenticated() ==> r == Failure(SessionExpired)
    {
      if !Authenticated() {
        return Failure(SessionExpired);
      }
      r := Success(ListResponse(offers, |offers|));
    }

    /** The state after an offer list change: the list replaced, the active count recomputed from it. */
    method SetOffers(next: seq<Offer>)
      modifies this
      ensures offers == next && stats == old(stats).(activeOffers := ActiveCount(next)) && Valid()
      ensures user == old(user) && tokens == old(tokens) && establishment == old(establishment)
    {
      offers := next;
      stats := stats.(activeOffers := ActiveCount(offers));
    }

    /** `offersApi.createOffer`: the new offer goes first in the list, with a fresh id and both timestamps now. */
    method CreateOffer(payload: OfferPayload, suffix: string, now: Timestamp) returns (r: Result<Offer, ApiError>)
      requires Valid()
      modifies this
      ensures Valid()
      ensures !old(Authenticated()) ==> r == Failure(SessionExpired) && unchanged(this)
      ensures old(Authenticated()) ==>
        && r == Success(NewOffer(payload, GenerateId("offer", suffix), now))
        && offers == [r.value] + old(offers)
        && stats == old(stats).(activeOffers := ActiveCount(offers))
      ensures user == old(user) && tokens == old(tokens) && establishment == old(establishment)
    {
      if !Authenticated() {
        return Failure(SessionExpired);
      }
      var offer := NewOffer(payload, GenerateId("offer", suffix), now);
      SetOffers([offer] + offers);
      r := Success(offer);
    }

    /** `offersApi.getOffer`: the first offer with this id. */
    method GetOffer(id: string) returns (r: Result<Offer, ApiError>)
      ensures !Authenticated() ==> r == Failure(SessionExpired)
      ensures Authenticated() && FindIndex(offers, HasId(id)).None? ==> r == Failure(OfferNotFound)
      ensures Authenticated() && FindIndex(offers, HasId(id)).Some? ==> r == Success(offers[FindIndex(offers, HasId(id)).value])
    {
      if !Authenticated() {
        return Failure(SessionExpired);
      }
      FindAtFindIndex(offers, HasId(id));
      var found := Find(offers, HasId(id));
      if found.None? {
        return Failure(OfferNotFound);
      }
      r := Success(found.value);
    }

    /**
     * `offersApi.updateOffer`: merges the patch over the first offer with this
     * id, stamps it, and recomputes the active count; an unknown id fails and
     * changes nothing.
     */
    method UpdateOffer(id: string, patch: OfferPatch, now: Timestamp) returns (r: Result<Offer, ApiError>)
      requires Valid()
      modifies this
      ensures Valid()
      ensures !old(Authenticated()) ==> r == Failure(SessionExpired) && unchanged(this)
      ensures old(Authenticated()) && FindIndex(old(offers), HasId(id)).None? ==> r == Failure(OfferNotFound) && unchanged(this)
      ensures old(Authenticated()) && FindIndex(old(offers), HasId(id)).Some? ==>
        var i := FindIndex(old(offers), HasId(id)).value;
        && r == Success(ApplyOfferPatch(old(offers)[i], patch, now))
        && offers == old(offers)[i := r.value]
        && stats == old(stats).(activeOffers := ActiveCount(offers))
      ensures user == old(user) && tokens == old(tokens) && establishment == old(establishment)
    {
      if !Authenticated() {
        return Failure(SessionExpired);
      }
      var index := FindIndex(offers, HasId(id));
      if index.None? {
        return Failure(OfferNotFound);
      }
      var i := index.value;
      var updated := ApplyOfferPatch(offers[i], patch, now);
      SetOffers(offers[i := updated]);
      r := Success(updated);
    }

    /** `offersApi.deleteOffer`: removes every offer with this id, keeps the rest in order, and recomputes the active count. */
    method DeleteOffer(id: string) returns (r: Result<(), ApiError>)
      requires Valid()
      modifies this
      ensures Valid()
      ensures !old(Authenticated()) ==> r == Failure(SessionExpired) && unchanged(this)
      ensures old(Authenticated()) ==>
        && r == Success(())
        && offers == Filter(old(offers), IdIsNot(id))
        && stats == old(stats).(activeOffers := ActiveCount(offers))
      ensures user == old(user) && tokens == old(tokens) && establishment == old(establishment)
    {
      if !Authenticated() {
        return Failure(SessionExpired);
      }
      SetOffers(Filter(offers, IdIsNot(id)));
      r := Success(());
    }

    /** `dashboardApi.getOverview`: the statistics, with the message "OK". */
    method GetOverview() returns (r: Result<SuccessResponse<StatsOverview>, ApiError>)
      ensures Authenticated() ==> r == Success(SuccessResponse(stats, Some("OK")))
      ensures !Authenticated() ==> r == Failure(SessionExpired)
    {
      if !Authenticated() {
        return Failure(SessionExpired);
      }
      r := Success(SuccessResponse(stats, Some("OK")));
    }
  }

  /** The seeded offers hold two active ones. */
  lemma InitialActiveOffers()
    ensures ActiveCount(InitialOffers) == 2
  {
    var offers := InitialOffers;
    assert offers[1..][1..][1..] == [];
  }

  /** Putting an offer in front adds one to the active count exactly when that offer is active. */
  lemma ActiveCountPrepend(o: Offer, offers: seq<Offer>)
    ensures ActiveCount([o] + offers) == ActiveCount(offers) + (if o.isActive then 1 else 0)
  {
    assert ([o] + offers)[1..] == offers;
  }

  /** Replacing one offer moves the active count by the change in that offer's activity, and by nothing else. */
  lemma ActiveCountAfterUpdate(offers: seq<Offer>, i: nat, updated: Offer)
    requires i < |offers|
    ensures ActiveCount(offers[i := updated])
         == ActiveCount(offers) - (if offers[i].isActive then 1 else 0) + (if updated.isActive then 1 else 0)
  {
    FilterLengthAfterUpdate(offers, i, updated, IsActive);
  }

  /** The activation patch changes only `isActive`, besides the timestamp. */
  lemma ActivationPatchChangesOnlyActivity(o: Offer, isActive: bool, now: Timestamp)
    ensures ApplyOfferPatch(o, ActivationPatch(isActive), now) == o.(isActive := isActive, updatedAt := now)
  {
  }

  /** Switching an offer's activity moves the active count by exactly one. */
  lemma SwitchingActivityMovesCountByOne(offers: seq<Offer>, i: nat, isActive: bool, now: Timestamp)
    requires i < |offers| && offers[i].isActive != isActive
    ensures ActiveCount(offers[i := ApplyOfferPatch(offers[i], ActivationPatch(isActive), now)])
         == ActiveCount(offers) + (if isActive then 1 else -1)
  {
    ActiveCountAfterUpdate(offers, i, ApplyOfferPatch(offers[i], ActivationPatch(isActive), now));
  }

  /** Applying the same patch twice gives the same offer as applying it once; a patch's own `updatedAt` is ignored. */
  lemma OfferPatchIdempotent(o: Offer, patch: OfferPatch, now: Timestamp)
    ensures ApplyOfferPatch(ApplyOfferPatch(o, patch, now), patch, now) == ApplyOfferPatch(o, patch, now)
    ensures ApplyOfferPatch(o, patch, now).updatedAt == now
    ensures ApplyOfferPatch(o, EmptyOfferPatch, now) == o.(updatedAt := now)
  {
  }

  /** Deleting an id no offer carries leaves the list as it is. */
  lemma DeleteAbsentIsNoop(offers: seq<Offer>, id: string)
    requires forall i :: 0 <= i < |offers| ==> offers[i].id != id
    ensures Filter(offers, IdIsNot(id)) == offers
  {
    FilterKeepsAll(offers, IdIsNot(id));
  }

  /** Deleting an id carried by exactly one offer removes that offer and keeps the others in their order. */
  lemma DeleteUniqueKeepsOrder(before: seq<Offer>, o: Offer, after: seq<Offer>)
    requires forall i :: 0 <= i < |before| ==> before[i].id != o.id
    requires forall i :: 0 <= i < |after| ==> after[i].id != o.id
    ensures Filter(before + [o] + after, IdIsNot(o.id)) == before + after
  {
    var keep := IdIsNot(o.id);
    FilterAppend(before + [o], after, keep);
    FilterAppend(before, [o], keep);
    FilterKeepsAll(before, keep);
    FilterKeepsAll(after, keep);
    assert Filter([o], keep) == [] by { assert [o][1..] == []; }
    assert before + [] == before;
  }

  /** Deleting leaves no offer with that id and every offer with another id. */
  lemma DeleteRemovesExactlyThatId(offers: seq<Offer>, id: string, o: Offer)
    ensures o in Filter(offers, IdIsNot(id)) <==> o in offers && o.id != id
    ensures |Filter(offers, IdIsNot(id))| < |offers| <==> exists i :: 0 <= i < |offers| && offers[i].id == id
  {
    var rest := Filter(offers, IdIsNot(id));
    if exists i :: 0 <= i < |offers| && offers[i].id == id {
      var i :| 0 <= i < |offers| && offers[i].id == id;
      assert !IdIsNot(id)(offers[i]);
    }
  }

  /** After signing out, every guarded endpoint answers that the session has expired. */
  method SignedOutScenario() returns (
    me: Result<PartnerUser, ApiError>,
    establishment: Result<Option<Establishment>, ApiError>,
    list: Result<ListResponse<Offer>, ApiError>,
    offer: Result<Offer, ApiError>,
    overview: Result<SuccessResponse<StatsOverview>, ApiError>)
    ensures me == Failure(SessionExpired) && establishment == Failure(SessionExpired)
    ensures list == Failure(SessionExpired) && offer == Failure(SessionExpired)
    ensures overview == Failure(SessionExpired)
  {
    var db := new MockDatabase();
    db.Logout();
    me := db.Me();
    establishment := db.GetEstablishment();
    list := db.ListOffers();
    offer := db.GetOffer("offer_001");
    overview := db.GetOverview();
  }

  /** A login with another email is refused, and the open session stays open. */
  method WrongEmailScenario() returns (login: Result<AuthResponse, ApiError>, me: Result<PartnerUser, ApiError>)
    ensures login == Failure(InvalidCredentials)
    ensures me == Success(InitialUser)
  {
    var db := new MockDatabase();
    login := db.Login(LoginPayload("someone@else.fr", "secret"), "a", "b");
    me := db.Me();
  }

  /** Activating the third seeded offer brings the dashboard's active count from two to three. */
  method ActivateOfferScenario(now: Timestamp) returns (before: int, after: int, total: int)
    ensures before == 2 && after == 3 && total == 3
  {
    var db := new MockDatabase();
    InitialActiveOffers();
    before := db.stats.activeOffers;
    assert FindIndex(db.offers, HasId("offer_003")) == Some(2);
    var updated := db.UpdateOffer("offer_003", ActivationPatch(true), now);
    SwitchingActivityMovesCountByOne(InitialOffers, 2, true, now);
    after := db.stats.activeOffers;
    var list := db.ListOffers();
    total := list.value.total;
  }

  /**
   * Once the establishment is deleted, a registration creates a new one under
   * a fresh id, named after the registration and attached to the new partner.
   */
  method RegisterAfterDeleteScenario(payload: RegisterPayload, suffixes: RegisterSuffixes, now: Timestamp)
    returns (r: AuthResponse, establishment: Result<Option<Establishment>, ApiError>)
    ensures r.user.establishmentId == GenerateId("est", suffixes.establishment)
    ensures establishment == Success(Some(RegisteredEstablishment(r.user.establishmentId, payload)))
    ensures establishment.value.value.name == payload.establishmentName
  {
    var db := new MockDatabase();
    var deleted := db.DeleteEstablishment("est_001");
    r := db.Register(payload, suffixes, now);
    establishment := db.GetEstablishment();
  }
}
