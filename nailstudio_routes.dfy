/**
 * The handlers of routes/nailstudio_routes.py over the `nail_studios`
 * table, which is the object `Directory` holding a map from id to row.
 * A JSON body is a typed payload: each key is absent or carries a value,
 * and the keys whose value the handler converts carry a JSON scalar.
 * The clock (`now`, `today`) and the generated id are parameters.
 */
module NailStudioRoutes {
  import opened Wrappers
  import opened Text
  import opened Sorting
  import opened NailStudioModel
  import opened NailStudioQuery

  // ---------------------------------------------------------------------
  // JSON values and Python's conversions of them

  /** A JSON scalar as `request.get_json()` delivers it. */
  datatype Json = JNull | JBool(b: bool) | JNum(x: real) | JStr(s: string)

  /** A key of the body: absent, or present with a value. */
  datatype Field<T> = Absent | Given(value: T)

  /** `data.get(key, default)`. */
  function FieldOr<T>(f: Field<T>, default: T): T
  {
    if f.Given? then f.value else default
  }

  /** A conversion's outcome; `ValueErr` and `TypeErr` are the exceptions Python raises. */
  datatype Conv<T> = Converted(value: T) | ValueErr | TypeErr

  /** `float(v)`. */
  function ToFloat(j: Json): (r: Conv<real>)
    ensures r.TypeErr? <==> j.JNull?
    ensures j.JNum? ==> r == Converted(j.x)
    ensures j.JStr? ==> (r.Converted? <==> ParseFloat(j.s).Some?)
  {
    match j
    case JNull => TypeErr
    case JBool(b) => Converted(if b then 1.0 else 0.0)
    case JNum(x) => Converted(x)
    case JStr(s) => (match ParseFloat(s) case None => ValueErr case Some(x) => Converted(x))
  }

  /** `int(v)`: a number is truncated toward zero. */
  function ToInt(j: Json): (r: Conv<int>)
    ensures r.TypeErr? <==> j.JNull?
    ensures j.JNum? ==> r.Converted?
    ensures j.JNum? && j.x >= 0.0 ==> r.value as real <= j.x < r.value as real + 1.0
    ensures j.JNum? && j.x < 0.0 ==> r.value as real - 1.0 < j.x <= r.value as real
    ensures j.JStr? ==> (r.Converted? <==> ParseInt(j.s).Some?)
  {
    match j
    case JNull => TypeErr
    case JBool(b) => Converted(if b then 1 else 0)
    case JNum(x) => Converted(TruncateToInt(x))
    case JStr(s) => (match ParseInt(s) case None => ValueErr case Some(n) => Converted(n))
  }

  /** A JSON integer converts to itself. */
  lemma ToIntOfInteger(n: int)
    ensures ToInt(JNum(n as real)) == Converted(n)
  {
  }

  /** `bool(v)`: Python's truthiness. */
  function Truthy(j: Json): bool
  {
    match j
    case JNull => false
    case JBool(b) => b
    case JNum(x) => x != 0.0
    case JStr(s) => s != ""
  }

  /** `float(v) if v is not None else None`. */
  function ToOptionalFloat(j: Json): (r: Conv<Option<real>>)
    ensures j.JNull? ==> r == Converted(None)
    ensures !r.TypeErr?
  {
    if j.JNull? then Converted(None)
    else match ToFloat(j)
      case Converted(x) => Converted(Some(x))
      case ValueErr => ValueErr
      case TypeErr => TypeErr
  }

  // ---------------------------------------------------------------------
  // Responses

  /** Why a handler did not succeed. */
  datatype Failure =
    | NamaRequired           // 400 'Nama is required'
    | InvalidDataFormat      // 400: a conversion raised ValueError
    | SurveyStatusRequired   // 400 'surveyStatus is required'
    | StudioNotFound         // 404
    | ServerError            // 500: any other exception, the session rolled back

  function StatusCode(f: Failure): int
  {
    match f
    case NamaRequired => 400
    case InvalidDataFormat => 400
    case SurveyStatusRequired => 400
    case StudioNotFound => 404
    case ServerError => 500
  }

  datatype Answer<T> = Ok(value: T) | Err(failure: Failure)

  /** The response to the first conversion of four that raised, if any did. */
  function FirstFailure<A, B, C, D>(a: Conv<A>, b: Conv<B>, c: Conv<C>, d: Conv<D>): (r: Option<Failure>)
    ensures r.None? <==> a.Converted? && b.Converted? && c.Converted? && d.Converted?
    ensures a.ValueErr? ==> r == Some(InvalidDataFormat)
    ensures a.TypeErr? ==> r == Some(ServerError)
    ensures a.Converted? && b.ValueErr? ==> r == Some(InvalidDataFormat)
    ensures a.Converted? && b.TypeErr? ==> r == Some(ServerError)
    ensures a.Converted? && b.Converted? && c.ValueErr? ==> r == Some(InvalidDataFormat)
    ensures a.Converted? && b.Converted? && c.TypeErr? ==> r == Some(ServerError)
    ensures a.Converted? && b.Converted? && c.Converted? && d.ValueErr? ==> r == Some(InvalidDataFormat)
    ensures a.Converted? && b.Converted? && c.Converted? && d.TypeErr? ==> r == Some(ServerError)
  {
    if a.ValueErr? || (a.Converted? && b.ValueErr?) || (a.Converted? && b.Converted? && c.ValueErr?)
       || (a.Converted? && b.Converted? && c.Converted? && d.ValueErr?)
    then Some(InvalidDataFormat)
    else if !(a.Converted? && b.Converted? && c.Converted? && d.Converted?) then Some(ServerError)
    else None
  }

  // ---------------------------------------------------------------------
  // The body of POST and PUT

  datatype StudioPayload = StudioPayload(
    nama: Field<Option<string>>,
    alamat: Field<Option<string>>,
    desa: Field<Option<string>>,
    noTelp: Field<Option<string>>,
    instagram: Field<Option<string>>,
    whatsapp: Field<Option<string>>,
    rating: Field<Json>,
    totalReviews: Field<Json>,
    description: Field<Option<string>>,
    photoUrl: Field<Option<string>>,
    instagramEmbed: Field<Option<string>>,
    mapsEmbed: Field<Option<string>>,
    latitude: Field<Json>,
    longitude: Field<Json>,
    operatingHours: Field<Option<Schedule>>,
    surveyStatus: Field<Json>)

  /** The body `{}`. */
  const EmptyPayload: StudioPayload :=
    StudioPayload(Absent, Absent, Absent, Absent, Absent, Absent, Absent, Absent,
                  Absent, Absent, Absent, Absent, Absent, Absent, Absent, Absent)

  /** `data.get(key)` for a text key: absent and null both read as `None`. */
  function GetText(f: Field<Option<string>>): Option<string>
  {
    if f.Given? then f.value else None
  }

  /** `not data or not data.get('nama')`. */
  predicate LacksNama(data: Option<StudioPayload>)
  {
    data.None? || GetText(data.value.nama).None? || GetText(data.value.nama).value == ""
  }

  /**
   * `create_nail_studio` on a table holding `table`: the row it commits
   * under the generated id `newId` at time `now`, or why it does not.
   */
  function CreateOutcome(table: map<string, Studio>, data: Option<StudioPayload>, newId: string, now: Timestamp): Answer<Studio>
  {
    if LacksNama(data) then Err(NamaRequired)
    else
      var p := data.value;
      var rating := ToFloat(FieldOr(p.rating, JNum(0.0)));
      var reviews := ToInt(FieldOr(p.totalReviews, JNum(0.0)));
      var lat := ToOptionalFloat(FieldOr(p.latitude, JNull));
      var lon := ToOptionalFloat(FieldOr(p.longitude, JNull));
      match FirstFailure(rating, reviews, lat, lon)
      case Some(f) => Err(f)
      case None =>
        if newId in table then Err(ServerError)
        else Ok(Studio(
          newId, GetText(p.nama).value, GetText(p.alamat), GetText(p.desa), GetText(p.noTelp),
          GetText(p.instagram), GetText(p.whatsapp), rating.value, reviews.value,
          GetText(p.description), GetText(p.photoUrl), GetText(p.instagramEmbed), GetText(p.mapsEmbed),
          lat.value, lon.value, FieldOr(p.operatingHours, Some(map[])),
          Truthy(FieldOr(p.surveyStatus, JBool(false))), now, now))
  }

  /** No body, or no non-empty `nama`: 400, whatever else the body holds. */
  lemma CreateNeedsNama(table: map<string, Studio>, data: Option<StudioPayload>, newId: string, now: Timestamp)
    ensures CreateOutcome(table, data, newId, now).Ok? ==> !LacksNama(data)
    ensures LacksNama(data) ==> CreateOutcome(table, data, newId, now) == Err(NamaRequired)
  {
  }

  /**
   * A body holding only `nama` creates a row with the defaults: rating 0,
   * no reviews, an empty schedule, not surveyed, every other optional
   * column NULL, both timestamps `now`.
   */
  lemma CreateDefaults(table: map<string, Studio>, nama: string, newId: string, now: Timestamp)
    requires nama != "" && newId !in table
    ensures var r := CreateOutcome(table, Some(EmptyPayload.(nama := Given(Some(nama)))), newId, now);
      && r.Ok?
      && r.value.id == newId && r.value.nama == nama
      && r.value.rating == 0.0 && r.value.totalReviews == 0
      && r.value.operatingHours == Some(map[]) && !r.value.surveyStatus
      && r.value.latitude.None? && r.value.longitude.None?
      && r.value.alamat.None? && r.value.desa.None? && r.value.description.None?
      && r.value.noTelp.None? && r.value.instagram.None? && r.value.whatsapp.None?
      && r.value.photoUrl.None? && r.value.instagramEmbed.None? && r.value.mapsEmbed.None?
      && r.value.createdAt == now && r.value.updatedAt == now
  {
  }

  /** A created row carries the body's values and passes the NOT NULL and primary-key constraints. */
  lemma CreateCopiesBody(table: map<string, Studio>, data: Option<StudioPayload>, newId: string, now: Timestamp)
    requires CreateOutcome(table, data, newId, now).Ok?
    ensures var s := CreateOutcome(table, data, newId, now).value;
      && s.id == newId && newId !in table
      && data.value.nama == Given(Some(s.nama)) && s.nama != ""
      && s.alamat == GetText(data.value.alamat) && s.desa == GetText(data.value.desa)
      && s.noTelp == GetText(data.value.noTelp) && s.instagram == GetText(data.value.instagram)
      && s.whatsapp == GetText(data.value.whatsapp) && s.description == GetText(data.value.description)
      && s.photoUrl == GetText(data.value.photoUrl) && s.instagramEmbed == GetText(data.value.instagramEmbed)
      && s.mapsEmbed == GetText(data.value.mapsEmbed)
      && (data.value.rating.Given? ==> ToFloat(data.value.rating.value) == Converted(s.rating))
      && (data.value.rating.Absent? ==> s.rating == 0.0)
      && (data.value.totalReviews.Given? ==> ToInt(data.value.totalReviews.value) == Converted(s.totalReviews))
      && (data.value.totalReviews.Absent? ==> s.totalReviews == 0)
      && (data.value.operatingHours.Given? ==> s.operatingHours == data.value.operatingHours.value)
      && (data.value.operatingHours.Absent? ==> s.operatingHours == Some(map[]))
      && (data.value.latitude.Given? ==> ToOptionalFloat(data.value.latitude.value) == Converted(s.latitude))
      && (data.value.latitude.Absent? ==> s.latitude.None?)
      && (data.value.longitude.Given? ==> ToOptionalFloat(data.value.longitude.value) == Converted(s.longitude))
      && (data.value.longitude.Absent? ==> s.longitude.None?)
      && (data.value.surveyStatus.Given? ==> s.surveyStatus == Truthy(data.value.surveyStatus.value))
      && (data.value.surveyStatus.Absent? ==> !s.surveyStatus)
      && s.createdAt == now && s.updatedAt == now
  {
  }

  /** A conversion that raises ValueError gives 400, and one that raises TypeError (a null) gives 500. */
  lemma CreateConversionErrors(table: map<string, Studio>, p: StudioPayload, newId: string, now: Timestamp)
    requires !LacksNama(Some(p))
    ensures p.rating.Given? && ToFloat(p.rating.value).ValueErr? ==>
              CreateOutcome(table, Some(p), newId, now) == Err(InvalidDataFormat)
    ensures p.rating == Given(JNull) ==> CreateOutcome(table, Some(p), newId, now) == Err(ServerError)
    ensures p.totalReviews == Given(JNull) && !(p.rating.Given? && ToFloat(p.rating.value).ValueErr?) ==>
              CreateOutcome(table, Some(p), newId, now) == Err(ServerError)
  {
  }

  /** The response to a conversion that raised: 400 for a ValueError, 500 for a TypeError. */
  function ConvFailure<T>(c: Conv<T>): Failure
  {
    if c.ValueErr? then InvalidDataFormat else ServerError
  }

  /** `p.rating` is absent or converts; likewise for the other numeric keys. */
  predicate RatingConverts(p: StudioPayload)
  {
    p.rating.Absent? || ToFloat(p.rating.value).Converted?
  }

  predicate ReviewsConvert(p: StudioPayload)
  {
    p.totalReviews.Absent? || ToInt(p.totalReviews.value).Converted?
  }

  predicate LatitudeConverts(p: StudioPayload)
  {
    p.latitude.Absent? || ToOptionalFloat(p.latitude.value).Converted?
  }

  predicate LongitudeConverts(p: StudioPayload)
  {
    p.longitude.Absent? || ToOptionalFloat(p.longitude.value).Converted?
  }

  /**
   * `update_nail_studio` on a found row `s`: every key present in the body
   * is written, in the handler's order, then `updatedAt`.  The first
   * conversion that raises decides the response; a null `nama` fails the
   * NOT NULL constraint at commit.
   */
  function UpdateOutcome(s: Studio, data: Option<StudioPayload>, now: Timestamp): Answer<Studio>
  {
    if data.None? then Err(ServerError)
    else
      var p := data.value;
      if !RatingConverts(p) then Err(ConvFailure(ToFloat(p.rating.value)))
      else if !ReviewsConvert(p) then Err(ConvFailure(ToInt(p.totalReviews.value)))
      else if !LatitudeConverts(p) || !LongitudeConverts(p) then Err(InvalidDataFormat)
      else if p.nama == Given(None) then Err(ServerError)
      else Ok(Studio(
        s.id,
        if p.nama.Given? then p.nama.value.value else s.nama,
        FieldOr(p.alamat, s.alamat), FieldOr(p.desa, s.desa), FieldOr(p.noTelp, s.noTelp),
        FieldOr(p.instagram, s.instagram), FieldOr(p.whatsapp, s.whatsapp),
        if p.rating.Given? then ToFloat(p.rating.value).value else s.rating,
        if p.totalReviews.Given? then ToInt(p.totalReviews.value).value else s.totalReviews,
        FieldOr(p.description, s.description), FieldOr(p.photoUrl, s.photoUrl),
        FieldOr(p.instagramEmbed, s.instagramEmbed), FieldOr(p.mapsEmbed, s.mapsEmbed),
        if p.latitude.Given? then ToOptionalFloat(p.latitude.value).value else s.latitude,
        if p.longitude.Given? then ToOptionalFloat(p.longitude.value).value else s.longitude,
        FieldOr(p.operatingHours, s.operatingHours),
        if p.surveyStatus.Given? then Truthy(p.surveyStatus.value) else s.surveyStatus,
        s.createdAt, now))
  }

  /**
   * A PUT writes exactly the keys present: an absent key leaves its column
   * as it was, a present one overwrites it (an explicit null latitude or
   * longitude clears it); id and createdAt never change, updatedAt is `now`.
   */
  lemma UpdateWritesPresentKeys(s: Studio, p: StudioPayload, now: Timestamp)
    requires UpdateOutcome(s, Some(p), now).Ok?
    ensures var t := UpdateOutcome(s, Some(p), now).value;
      && t.id == s.id && t.createdAt == s.createdAt && t.updatedAt == now
      && (p.nama.Absent? ==> t.nama == s.nama) && (p.nama.Given? ==> p.nama.value == Some(t.nama))
      && t.alamat == FieldOr(p.alamat, s.alamat) && t.desa == FieldOr(p.desa, s.desa)
      && t.noTelp == FieldOr(p.noTelp, s.noTelp) && t.instagram == FieldOr(p.instagram, s.instagram)
      && t.whatsapp == FieldOr(p.whatsapp, s.whatsapp) && t.description == FieldOr(p.description, s.description)
      && t.photoUrl == FieldOr(p.photoUrl, s.photoUrl) && t.instagramEmbed == FieldOr(p.instagramEmbed, s.instagramEmbed)
      && t.mapsEmbed == FieldOr(p.mapsEmbed, s.mapsEmbed) && t.operatingHours == FieldOr(p.operatingHours, s.operatingHours)
      && (p.rating.Absent? ==> t.rating == s.rating) && (p.rating.Given? ==> ToFloat(p.rating.value) == Converted(t.rating))
      && (p.totalReviews.Absent? ==> t.totalReviews == s.totalReviews)
      && (p.totalReviews.Given? ==> ToInt(p.totalReviews.value) == Converted(t.totalReviews))
      && (p.latitude.Absent? ==> t.latitude == s.latitude) && (p.latitude == Given(JNull) ==> t.latitude.None?)
      && (p.latitude.Given? ==> ToOptionalFloat(p.latitude.value) == Converted(t.latitude))
      && (p.longitude.Absent? ==> t.longitude == s.longitude) && (p.longitude == Given(JNull) ==> t.longitude.None?)
      && (p.longitude.Given? ==> ToOptionalFloat(p.longitude.value) == Converted(t.longitude))
      && (p.surveyStatus.Absent? ==> t.surveyStatus == s.surveyStatus)
      && (p.surveyStatus.Given? ==> t.surveyStatus == Truthy(p.surveyStatus.value))
  {
  }

  /** A PUT with the body `{}` only refreshes updatedAt. */
  lemma UpdateEmptyBody(s: Studio, now: Timestamp)
    ensures UpdateOutcome(s, Some(EmptyPayload), now) == Ok(s.(updatedAt := now))
  {
  }

  /** Repeating a PUT with the same body at the same time changes nothing more. */
  lemma UpdateIdempotent(s: Studio, p: StudioPayload, now: Timestamp)
    requires UpdateOutcome(s, Some(p), now).Ok?
    ensures var t := UpdateOutcome(s, Some(p), now).value;
      UpdateOutcome(t, Some(p), now) == Ok(t)
  {
  }

  /** A PUT fails exactly when a present numeric key does not convert or `nama` is null. */
  lemma UpdateFailsIff(s: Studio, p: StudioPayload, now: Timestamp)
    ensures UpdateOutcome(s, Some(p), now).Err? <==>
      || (p.rating.Given? && !ToFloat(p.rating.value).Converted?)
      || (p.totalReviews.Given? && !ToInt(p.totalReviews.value).Converted?)
      || (p.latitude.Given? && !ToOptionalFloat(p.latitude.value).Converted?)
      || (p.longitude.Given? && !ToOptionalFloat(p.longitude.value).Converted?)
      || p.nama == Given(None)
  {
  }

  /**
   * `update_survey_status` on a found row: a missing or null `surveyStatus`
   * is 400; otherwise its truthiness is stored and updatedAt refreshed.
   */
  function SurveyOutcome(s: Studio, data: Option<StudioPayload>, now: Timestamp): Answer<Studio>
  {
    if data.None? then Err(ServerError)
    else if data.value.surveyStatus.Absent? || data.value.surveyStatus.value.JNull? then Err(SurveyStatusRequired)
    else Ok(s.(surveyStatus := Truthy(data.value.surveyStatus.value), updatedAt := now))
  }

  /** A PATCH touches only surveyStatus and updatedAt, and fails only for a missing value or body. */
  lemma SurveyTouchesOnlyStatus(s: Studio, data: Option<StudioPayload>, now: Timestamp)
    ensures SurveyOutcome(s, data, now).Ok? ==>
              var t := SurveyOutcome(s, data, now).value;
              t.(surveyStatus := s.surveyStatus, updatedAt := s.updatedAt) == s && t.updatedAt == now
    ensures SurveyOutcome(s, data, now).Err? <==>
              data.None? || data.value.surveyStatus.Absent? || data.value.surveyStatus == Given(JNull)
    ensures data.None? ==> SurveyOutcome(s, data, now) == Err(ServerError)
    ensures data.Some? && (data.value.surveyStatus.Absent? || data.value.surveyStatus == Given(JNull)) ==>
              SurveyOutcome(s, data, now) == Err(SurveyStatusRequired)
    ensures data.Some? && data.value.surveyStatus.Given? && data.value.surveyStatus.value.JBool? ==>
              SurveyOutcome(s, data, now) == Ok(s.(surveyStatus := data.value.surveyStatus.value.b, updatedAt := now))
  {
  }

  // ---------------------------------------------------------------------
  // Responses of the read handlers

  /** The `data` of a PATCH response. */
  datatype SurveySummary = SurveySummary(id: string, nama: string, surveyStatus: bool)

  /** The response of `GET /nail-studios`. */
  datatype ListResponse = ListResponse(
    data: seq<StudioDict>,
    pagination: PageInfo,
    desaOptions: seq<string>,
    applied: ListQuery)

  /** The response of `GET /nail-studios/stats`. */
  datatype StudioStats = StudioStats(
    totalStudios: nat,
    surveyedStudios: nat,
    unsurveyedStudios: int,
    openToday: nat,
    averageRating: real,
    desaDistribution: map<string, nat>)

  /** A desa that counts as one: not NULL and not empty. */
  predicate HasDesa(s: Studio)
  {
    s.desa.Some? && s.desa.value != ""
  }

  ghost function MatchingIds(table: map<string, Studio>, q: ListQuery): set<string>
  {
    set id | id in table && Selected(q, table[id])
  }

  ghost function PassingIds(table: map<string, Studio>, filters: seq<Filter>): set<string>
  {
    set id | id in table && PassesAll(table[id], filters)
  }

  ghost function MatchingRows(table: map<string, Studio>, q: ListQuery): set<Studio>
  {
    set id | id in table && Selected(q, table[id]) :: table[id]
  }

  ghost function DesaValues(table: map<string, Studio>): set<string>
  {
    set id | id in table && HasDesa(table[id]) :: table[id].desa.value
  }

  ghost function SurveyedIds(table: map<string, Studio>): set<string>
  {
    set id | id in table && table[id].surveyStatus
  }

  ghost function UnsurveyedIds(table: map<string, Studio>): set<string>
  {
    set id | id in table && !table[id].surveyStatus
  }

  ghost function OpenIds(table: map<string, Studio>, today: Weekday, ids: set<string>): set<string>
  {
    set id | id in ids && id in table && IsOpenToday(table[id].operatingHours, today)
  }

  /** Adding a row to the rows looked at adds it to the open ones exactly when it is open today. */
  lemma OpenIdsAdd(table: map<string, Studio>, today: Weekday, seen: set<string>, id: string)
    requires id in table && id !in seen
    ensures |OpenIds(table, today, seen + {id})| ==
              |OpenIds(table, today, seen)| + (if IsOpenToday(table[id].operatingHours, today) then 1 else 0)
  {
    var before, after := OpenIds(table, today, seen), OpenIds(table, today, seen + {id});
    var open := IsOpenToday(table[id].operatingHours, today);
    var added: set<string> := if open then {id} else {};
    forall x ensures x in after <==> x in before + added {
      assert x in after <==> (x in seen || x == id) && x in table && IsOpenToday(table[x].operatingHours, today);
    }
    assert after == before + added;
    assert id !in before;
  }

  /** The sum of the ratings of the rows `ids`. */
  ghost function RatingSum(table: map<string, Studio>, ids: set<string>): real
    requires ids <= table.Keys
    decreases |ids|
  {
    if ids == {} then 0.0
    else
      var i :| i in ids;
      table[i].rating + RatingSum(table, ids - {i})
  }

  /** Any row may be taken out of the sum first. */
  lemma {:induction false} RatingSumRemove(table: map<string, Studio>, ids: set<string>, x: string)
    requires ids <= table.Keys && x in ids
    ensures RatingSum(table, ids) == table[x].rating + RatingSum(table, ids - {x})
    decreases |ids|
  {
    var i :| i in ids && RatingSum(table, ids) == table[i].rating + RatingSum(table, ids - {i});
    if i != x {
      RatingSumRemove(table, ids - {i}, x);
      RatingSumRemove(table, ids - {x}, i);
      assert ids - {i} - {x} == ids - {x} - {i};
    }
  }

  /** The rows whose desa is `d`. */
  ghost function DesaIds(table: map<string, Studio>, d: string): set<string>
  {
    set id | id in table && table[id].desa == Some(d)
  }

  /** The `GROUP BY desa` count of `get_stats`, over the rows with a non-empty desa. */
  function DesaDistribution(table: map<string, Studio>): (r: map<string, nat>)
    ensures r.Keys == DesaValues(table)
    ensures forall d :: d in r ==> r[d] == |DesaIds(table, d)| && r[d] >= 1
  {
    var names := set id | id in table && HasDesa(table[id]) :: table[id].desa.value;
    var r := map d | d in names :: |set id | id in table && table[id].desa == Some(d)|;
    assert forall d :: d in r ==> r[d] == |DesaIds(table, d)| && r[d] >= 1 by {
      forall d | d in r ensures r[d] == |DesaIds(table, d)| && r[d] >= 1 {
        var id :| id in table && HasDesa(table[id]) && table[id].desa.value == d;
        assert id in DesaIds(table, d);
      }
    }
    r
  }

  /** `ordered` is what the query returns before pagination: the rows `q` selects, each once, in the order `q` asks for. */
  ghost predicate QueryResult(table: map<string, Studio>, q: ListQuery, ordered: seq<Studio>)
  {
    && SortedBy(ordered, OrderOf(q))
    && (forall s :: s in ordered <==> s in MatchingRows(table, q))
    && |ordered| == |MatchingIds(table, q)|
  }

  /** `options` are the distinct non-empty desa values of the table, ascending. */
  ghost predicate DesaList(table: map<string, Studio>, options: seq<string>)
  {
    StrictlyIncreasing(options) && forall d :: d in options <==> d in DesaValues(table)
  }

  /** Every row is surveyed or not, so the unsurveyed count is the total less the surveyed one. */
  lemma {:induction false} SurveyedSplit(table: map<string, Studio>)
    ensures |UnsurveyedIds(table)| == |table| - |SurveyedIds(table)|
  {
    assert SurveyedIds(table) + UnsurveyedIds(table) == table.Keys;
    assert SurveyedIds(table) * UnsurveyedIds(table) == {};
  }

  /**
   * The assignments of `update_nail_studio` to the found row `s`, key by key
   * in the handler's order, then `updatedAt`; a conversion that raises stops
   * them, and a null `nama` fails at commit.
   */
  method ApplyBody(s: Studio, p: StudioPayload, now: Timestamp) returns (r: Answer<Studio>)
    ensures r == UpdateOutcome(s, Some(p), now)
  {
    var nama, clearsNama := s.nama, false;
    if p.nama.Given? {
      if p.nama.value.None? {
        clearsNama := true;
      } else {
        nama := p.nama.value.value;
      }
    }
    var alamat := FieldOr(p.alamat, s.alamat);
    var desa := FieldOr(p.desa, s.desa);
    var noTelp := FieldOr(p.noTelp, s.noTelp);
    var instagram := FieldOr(p.instagram, s.instagram);
    var whatsapp := FieldOr(p.whatsapp, s.whatsapp);
    var rating := s.rating;
    if p.rating.Given? {
      var c := ToFloat(p.rating.value);
      if !c.Converted? {
        return Err(ConvFailure(c));
      }
      rating := c.value;
    }
    var reviews := s.totalReviews;
    if p.totalReviews.Given? {
      var c := ToInt(p.totalReviews.value);
      if !c.Converted? {
        return Err(ConvFailure(c));
      }
      reviews := c.value;
    }
    var description := FieldOr(p.description, s.description);
    var photoUrl := FieldOr(p.photoUrl, s.photoUrl);
    var instagramEmbed := FieldOr(p.instagramEmbed, s.instagramEmbed);
    var mapsEmbed := FieldOr(p.mapsEmbed, s.mapsEmbed);
    var latitude := s.latitude;
    if p.latitude.Given? {
      var c := ToOptionalFloat(p.latitude.value);
      if !c.Converted? {
        return Err(InvalidDataFormat);
      }
      latitude := c.value;
    }
    var longitude := s.longitude;
    if p.longitude.Given? {
      var c := ToOptionalFloat(p.longitude.value);
      if !c.Converted? {
        return Err(InvalidDataFormat);
      }
      longitude := c.value;
    }
    var hours := FieldOr(p.operatingHours, s.operatingHours);
    var surveyStatus := if p.surveyStatus.Given? then Truthy(p.surveyStatus.value) else s.surveyStatus;
    if clearsNama {
      // The commit fails on the NOT NULL constraint of `nama` and the session is rolled back.
      return Err(ServerError);
    }
    r := Ok(Studio(s.id, nama, alamat, desa, noTelp, instagram, whatsapp, rating, reviews,
                   description, photoUrl, instagramEmbed, mapsEmbed, latitude, longitude,
                   hours, surveyStatus, s.createdAt, now));
  }

  // ---------------------------------------------------------------------
  // The table

  class Directory {
    /** The rows of `nail_studios`, by primary key. */
    var studios: map<string, Studio>

    /** Each row is stored under its own id. */
    ghost predicate Valid()
      reads this
    {
      forall id :: id in studios ==> studios[id].id == id
    }

    constructor ()
      ensures Valid() && studios == map[]
    {
      studios := map[];
    }

    /** `create_nail_studio`: `newId` is the id the column default generates. */
    method CreateNailStudio(data: Option<StudioPayload>, newId: string, now: Timestamp, today: Weekday)
      returns (r: Answer<StudioDict>)
      requires Valid()
      modifies this
      ensures Valid()
      ensures var c := CreateOutcome(old(studios), data, newId, now);
        && (c.Ok? ==> studios == old(studios)[newId := c.value] && r == Ok(ToDict(c.value, true, today)))
        && (c.Err? ==> studios == old(studios) && r == Err(c.failure))
    {
      var c := CreateOutcome(studios, data, newId, now);
      if c.Err? {
        return Err(c.failure);
      }
      studios := studios[newId := c.value];
      r := Ok(ToDict(c.value, true, today));
    }

    /** `get_nail_studio`: the row's dictionary and its week view. */
    method GetNailStudio(id: string, today: Weekday) returns (r: Answer<(StudioDict, seq<(string, string)>)>)
      ensures id !in studios <==> r == Err(StudioNotFound)
      ensures id in studios ==> r.Ok? && r.value.0 == ToDict(studios[id], true, today)
      ensures id in studios ==> r.Ok? && |r.value.1| == 7
      ensures id in studios ==> forall i :: 0 <= i < 7 ==>
                r.value.1[i] == (DayLabel(Week[i]), WeekEntry(ShownHours(studios[id].operatingHours), Week[i]))
    {
      if id !in studios {
        return Err(StudioNotFound);
      }
      var s := studios[id];
      var schedule := WeekSchedule(s.operatingHours);
      r := Ok((ToDict(s, true, today), schedule));
    }

    /** `update_nail_studio`: the row is rewritten only when the whole body applies. */
    method UpdateNailStudio(id: string, data: Option<StudioPayload>, now: Timestamp, today: Weekday)
      returns (r: Answer<StudioDict>)
      requires Valid()
      modifies this
      ensures Valid()
      ensures id !in old(studios) ==> r == Err(StudioNotFound) && studios == old(studios)
      ensures id in old(studios) ==>
                var u := UpdateOutcome(old(studios)[id], data, now);
                && (u.Ok? ==> studios == old(studios)[id := u.value] && r == Ok(ToDict(u.value, true, today)))
                && (u.Err? ==> studios == old(studios) && r == Err(u.failure))
    {
      if id !in studios {
        return Err(StudioNotFound);
      }
      if data.None? {
        return Err(ServerError);
      }
      var u := ApplyBody(studios[id], data.value, now);
      if u.Err? {
        return Err(u.failure);
      }
      studios := studios[id := u.value];
      r := Ok(ToDict(u.value, true, today));
    }

    /** `update_survey_status`. */
    method UpdateSurveyStatus(id: string, data: Option<StudioPayload>, now: Timestamp)
      returns (r: Answer<SurveySummary>)
      requires Valid()
      modifies this
      ensures Valid()
      ensures id !in old(studios) ==> r == Err(StudioNotFound) && studios == old(studios)
      ensures id in old(studios) ==>
                var u := SurveyOutcome(old(studios)[id], data, now);
                && (u.Ok? ==> studios == old(studios)[id := u.value]
                              && r == Ok(SurveySummary(id, u.value.nama, u.value.surveyStatus)))
                && (u.Err? ==> studios == old(studios) && r == Err(u.failure))
    {
      if id !in studios {
        return Err(StudioNotFound);
      }
      if data.None? {
        return Err(ServerError);
      }
      var status := data.value.surveyStatus;
      if status.Absent? || status.value.JNull? {
        return Err(SurveyStatusRequired);
      }
      var t := studios[id].(surveyStatus := Truthy(status.value));
      t := t.(updatedAt := now);
      studios := studios[id := t];
      r := Ok(SurveySummary(id, t.nama, t.surveyStatus));
    }

    /** `delete_nail_studio`: the response carries the deleted row's name. */
    method DeleteNailStudio(id: string) returns (r: Answer<string>)
      requires Valid()
      modifies this
      ensures Valid()
      ensures id !in old(studios) ==> r == Err(StudioNotFound) && studios == old(studios)
      ensures id in old(studios) ==> r == Ok(old(studios)[id].nama) && studios == old(studios) - {id}
    {
      if id !in studios {
        return Err(StudioNotFound);
      }
      var name := studios[id].nama;
      studios := studios - {id};
      r := Ok(name);
    }

    /** The keys of the rows that pass `filters` (the WHERE clause), each once, in the order the result is read. */
    method PassingKeys(filters: seq<Filter>) returns (ids: seq<string>)
      ensures forall k :: 0 <= k < |ids| ==> ids[k] in studios && PassesAll(studios[ids[k]], filters)
      ensures forall id :: id in studios && PassesAll(studios[id], filters) ==> id in ids
      ensures forall i, j :: 0 <= i < j < |ids| ==> ids[i] != ids[j]
      ensures |ids| == |PassingIds(studios, filters)|
    {
      var passing := set id | id in studios && PassesAll(studios[id], filters);
      ids := [];
      var rest := passing;
      while rest != {}
        invariant rest <= passing
        invariant forall k :: 0 <= k < |ids| ==> ids[k] in passing && ids[k] !in rest
        invariant forall id :: id in passing ==> id in ids || id in rest
        invariant forall i, j :: 0 <= i < j < |ids| ==> ids[i] != ids[j]
        invariant |ids| + |rest| == |passing|
        decreases |rest|
      {
        var id :| id in rest;
        ids := ids + [id];
        rest := rest - {id};
      }
    }

    /** Reads the rows that pass `filters`, in whatever order the table yields them. */
    method SelectRows(filters: seq<Filter>) returns (rows: seq<Studio>)
      requires Valid()
      ensures forall k :: 0 <= k < |rows| ==> rows[k].id in studios && studios[rows[k].id] == rows[k]
      ensures forall k :: 0 <= k < |rows| ==> PassesAll(rows[k], filters)
      ensures forall id :: id in studios && PassesAll(studios[id], filters) ==> studios[id] in rows
      ensures forall i, j :: 0 <= i < j < |rows| ==> rows[i].id != rows[j].id
      ensures |rows| == |PassingIds(studios, filters)|
    {
      var ids := PassingKeys(filters);
      var table := studios;
      rows := seq(|ids|, k requires 0 <= k < |ids| => table[ids[k]]);
      forall id | id in studios && PassesAll(studios[id], filters) ensures studios[id] in rows {
        var k :| 0 <= k < |ids| && ids[k] == id;
        assert rows[k] == studios[id];
      }
    }

    /** The desa options: the distinct non-empty desa values, ascending. */
    method DesaOptions() returns (options: seq<string>)
      ensures DesaList(studios, options)
    {
      var found: seq<string> := [];
      var rest := studios.Keys;
      ghost var seen: set<string> := {};
      while rest != {}
        invariant rest !! seen && rest + seen == studios.Keys
        invariant forall k :: 0 <= k < |found| ==> found[k] in DesaValues(studios)
        invariant forall id :: id in seen && HasDesa(studios[id]) ==> studios[id].desa.value in found
        decreases |rest|
      {
        var id :| id in rest;
        var s := studios[id];
        if s.desa.Some? && s.desa.value != "" {
          found := found + [s.desa.value];
        }
        rest := rest - {id};
        seen := seen + {id};
      }
      forall d | d in DesaValues(studios) ensures d in found {
        var id :| id in studios && HasDesa(studios[id]) && studios[id].desa.value == d;
      }
      options := SortedDistinct(found);
    }

    /** The query before pagination: the rows `q` selects, each once, in the order `q` asks for. */
    method OrderedRows(q: ListQuery) returns (ordered: seq<Studio>)
      requires Valid()
      ensures QueryResult(studios, q, ordered)
    {
      var filters := BuildFilters(q);
      var rows := SelectRows(filters);
      SelectedRows(q, filters, rows);
      OrderTotal(q);
      ordered := SortBy(rows, OrderOf(q));
      SortByMembers(rows, OrderOf(q));
    }

    /**
     * `get_nail_studios` once the query string is read into `q`.  `ordered`
     * is the result of the query before pagination.
     */
    method ListPage(q: ListQuery, today: Weekday) returns (r: ListResponse, ghost ordered: seq<Studio>)
      requires Valid()
      ensures r.applied == q
      ensures QueryResult(studios, q, ordered)
      ensures r.pagination == Paginate(|ordered|, q.page, q.perPage)
      ensures r.data == PostFiltered(PageItems(ordered, r.pagination), q.openToday, today)
      ensures DesaList(studios, r.desaOptions)
    {
      var sorted := OrderedRows(q);
      ordered := sorted;
      var info := Paginate(|sorted|, q.page, q.perPage);
      var items := PageItems(sorted, info);
      var data := PostFilter(items, q.openToday, today);
      var options := DesaOptions();
      r := ListResponse(data, info, options, q);
    }

    /**
     * `get_nail_studios`: the page of the selected rows in the requested
     * order, the `open_today` filter applied to that page, and the desa options.
     */
    method ListNailStudios(args: ListArgs, today: Weekday) returns (r: ListResponse, ghost ordered: seq<Studio>)
      requires Valid()
      ensures r.applied == ReadQuery(args)
      ensures QueryResult(studios, r.applied, ordered)
      ensures r.pagination == Paginate(|ordered|, r.applied.page, r.applied.perPage)
      ensures r.pagination.page >= 1 && r.pagination.perPage >= 1
      ensures r.data == PostFiltered(PageItems(ordered, r.pagination), r.applied.openToday, today)
      ensures DesaList(studios, r.desaOptions)
    {
      r, ordered := ListPage(ReadQuery(args), today);
    }

    /** The rows passing the filters built from `q` are the rows `q` selects. */
    lemma SelectedRows(q: ListQuery, filters: seq<Filter>, rows: seq<Studio>)
      requires Valid()
      requires forall s :: PassesAll(s, filters) <==> Selected(q, s)
      requires forall k :: 0 <= k < |rows| ==> rows[k].id in studios && studios[rows[k].id] == rows[k]
      requires forall k :: 0 <= k < |rows| ==> PassesAll(rows[k], filters)
      requires forall id :: id in studios && PassesAll(studios[id], filters) ==> studios[id] in rows
      requires |rows| == |PassingIds(studios, filters)|
      ensures forall s :: s in rows <==> s in MatchingRows(studios, q)
      ensures |rows| == |MatchingIds(studios, q)|
    {
      assert PassingIds(studios, filters) == MatchingIds(studios, q);
      forall s | s in MatchingRows(studios, q) ensures s in rows {
        var id :| id in studios && Selected(q, studios[id]) && studios[id] == s;
      }
      forall s | s in rows ensures s in MatchingRows(studios, q) {
        var k :| 0 <= k < |rows| && rows[k] == s;
        assert studios[s.id] == s && Selected(q, s);
      }
    }

    /** The loop of `get_stats` over every row, counting those open today. */
    method CountOpenToday(today: Weekday) returns (count: nat)
      ensures count == |OpenIds(studios, today, studios.Keys)|
    {
      count := 0;
      var rest := studios.Keys;
      ghost var seen: set<string> := {};
      while rest != {}
        invariant rest !! seen && rest + seen == studios.Keys
        invariant count == |OpenIds(studios, today, seen)|
        decreases |rest|
      {
        var id :| id in rest;
        OpenIdsAdd(studios, today, seen, id);
        if IsOpenToday(studios[id].operatingHours, today) {
          count := count + 1;
        }
        rest := rest - {id};
        seen := seen + {id};
      }
    }

    /** `func.avg(rating) or 0`: the mean rating, 0 for an empty table. */
    method AverageRating() returns (average: real)
      ensures average == if |studios| == 0 then 0.0 else RatingSum(studios, studios.Keys) / (|studios| as real)
    {
      var sum := 0.0;
      var rest := studios.Keys;
      ghost var seen: set<string> := {};
      while rest != {}
        invariant rest !! seen && rest + seen == studios.Keys
        invariant sum == RatingSum(studios, seen)
        decreases |rest|
      {
        var id :| id in rest;
        RatingSumRemove(studios, seen + {id}, id);
        assert seen + {id} - {id} == seen;
        sum := sum + studios[id].rating;
        rest := rest - {id};
        seen := seen + {id};
      }
      average := if |studios| == 0 then 0.0 else sum / (|studios| as real);
    }

    /** `get_stats`. */
    method GetStats(today: Weekday) returns (r: StudioStats)
      ensures r.totalStudios == |studios|
      ensures r.surveyedStudios == |SurveyedIds(studios)|
      ensures r.unsurveyedStudios == |UnsurveyedIds(studios)| == r.totalStudios - r.surveyedStudios
      ensures r.openToday == |OpenIds(studios, today, studios.Keys)|
      ensures r.averageRating == if |studios| == 0 then 0.0 else RatingSum(studios, studios.Keys) / (|studios| as real)
      ensures r.desaDistribution == DesaDistribution(studios)
    {
      var total := |studios|;
      var surveyed := |set id | id in studios && studios[id].surveyStatus|;
      var openCount := CountOpenToday(today);
      var average := AverageRating();
      SurveyedSplit(studios);
      r := StudioStats(total, surveyed, total - surveyed, openCount, average, DesaDistribution(studios));
    }
  }
}
