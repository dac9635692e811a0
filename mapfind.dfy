/**
  Place normalisation and the survey update of router/mapfind.py.

  Payloads of the maps API are given as values of RawPlace (calls to the API
  are not part of the model).  The place table of the database is the field
  `records` of class PlaceTable, keyed by place id.  A Python exception raised
  while building a response is a Failure carrying a Fault.
*/
module MapFind {
  import opened Wrappers

  type PlaceId = string

  /** match_place_types: the API's place type to the type this service reports. */
  const MatchPlaceTypes: map<string, string> :=
    map["hospital" := "hospital", "subway_station" := "subway_station", "school" := "school", "doctor" := "hospital"]

  /**
    An opening-hours object: its openNow flag, if any, and the names of its
    other keys (they matter only because Python treats an empty dict as false).
  */
  datatype OpeningHours = OpeningHours(openNow: Option<bool>, otherKeys: set<string>)

  datatype Location = Location(latitude: real, longitude: real)

  /**
    One place of the API's response.  `displayName` is displayName.text;
    an absent `types` list reads as empty, since both raise on types[0].
  */
  datatype RawPlace = RawPlace(
    id: PlaceId,
    displayName: string,
    primaryType: Option<string>,
    types: seq<string>,
    location: Location,
    currentOpeningHours: Option<OpeningHours>,
    currentSecondaryOpeningHours: Option<seq<OpeningHours>>,
    internationalPhoneNumber: Option<string>,
    googleMapsUri: string)

  /** The Place of a scan. */
  datatype Place = Place(placeId: PlaceId, displayName: string, placeType: string,
                         location: Location, openNow: Option<bool>)

  /** A row of the place table. */
  datatype PlaceRecord = PlaceRecord(displayName: string, safeRating: int, sleepAvailable: int)

  /** The PlaceDetail of get_place_detail (photo URLs left out). */
  datatype PlaceDetail = PlaceDetail(placeId: PlaceId, displayName: string, placeType: string,
                                     phoneNumber: string, location: Location, googleMapUri: string,
                                     openNow: Option<bool>, sleepAvailable: int, safeRating: int)

  /** Why building a response raised: types[0] of an empty list, or a KeyError. */
  datatype Fault = NoPlaceType | UnmappedPlaceType(key: string) | MissingField(name: string)

  /** match_place_types[key], None for a KeyError. */
  function MatchPlaceType(key: string): (r: Option<string>)
    ensures r.Some? <==> key in {"hospital", "subway_station", "school", "doctor"}
    ensures key == "doctor" ==> r == Some("hospital")
    ensures key in {"hospital", "subway_station", "school"} ==> r == Some(key)
  {
    if key in MatchPlaceTypes then Some(MatchPlaceTypes[key]) else None
  }

  /** Mapping a reported type again leaves it as it is. */
  lemma MatchPlaceTypeIdempotent(key: string)
    requires MatchPlaceType(key).Some?
    ensures MatchPlaceType(MatchPlaceType(key).value) == MatchPlaceType(key)
  {
  }

  /** Python truthiness of a string field: present and non-empty. */
  predicate PresentText(s: Option<string>)
  {
    s.Some? && s.value != ""
  }

  /** Python truthiness of an opening-hours object: present and non-empty. */
  predicate PresentHours(h: Option<OpeningHours>)
  {
    h.Some? && (h.value.openNow.Some? || h.value.otherKeys != {})
  }

  /** The key looked up in match_place_types: primaryType when truthy, else types[0]. */
  function PlaceTypeKey(p: RawPlace): (r: Option<string>)
    ensures PresentText(p.primaryType) ==> r == p.primaryType
    ensures !PresentText(p.primaryType) ==> (r.Some? <==> |p.types| > 0)
    ensures !PresentText(p.primaryType) && |p.types| > 0 ==> r == Some(p.types[0])
  {
    if PresentText(p.primaryType) then p.primaryType
    else if |p.types| > 0 then Some(p.types[0])
    else None
  }

  /** The type field of Place and PlaceDetail. */
  function PlaceType(p: RawPlace): (r: Result<string, Fault>)
    ensures r.Success? <==> PlaceTypeKey(p).Some? && PlaceTypeKey(p).value in MatchPlaceTypes
    ensures r.Success? ==> r.value in {"hospital", "subway_station", "school"}
    ensures r.Success? ==> MatchPlaceType(PlaceTypeKey(p).value) == Some(r.value)
    ensures PlaceTypeKey(p).None? ==> r == Failure(NoPlaceType)
    ensures PlaceTypeKey(p).Some? && PlaceTypeKey(p).value !in MatchPlaceTypes
            ==> r == Failure(UnmappedPlaceType(PlaceTypeKey(p).value))
  {
    match PlaceTypeKey(p)
    case None => Failure(NoPlaceType)
    case Some(key) =>
      match MatchPlaceType(key)
      case None => Failure(UnmappedPlaceType(key))
      case Some(t) => Success(t)
  }

  /** A place whose primary type is "doctor" is reported as a hospital. */
  lemma DoctorReportedAsHospital(p: RawPlace)
    requires p.primaryType == Some("doctor")
    ensures PlaceType(p) == Success("hospital")
  {
  }

  /** The open_now of a scan: currentOpeningHours.openNow when that object is truthy, else False. */
  function ScanOpenNow(p: RawPlace): (r: Option<bool>)
    ensures !PresentHours(p.currentOpeningHours) ==> r == Some(false)
    ensures PresentHours(p.currentOpeningHours) ==> r == p.currentOpeningHours.value.openNow
  {
    if PresentHours(p.currentOpeningHours) then p.currentOpeningHours.value.openNow else Some(false)
  }

  /**
    The open_now of the detail view: openNow of the first entry of
    currentSecondaryOpeningHours when that list is present and non-empty, else False.
  */
  function DetailOpenNow(p: RawPlace): (r: Option<bool>)
    ensures p.currentSecondaryOpeningHours.None? || p.currentSecondaryOpeningHours == Some([]) ==> r == Some(false)
    ensures p.currentSecondaryOpeningHours.Some? && |p.currentSecondaryOpeningHours.value| > 0
            ==> r == p.currentSecondaryOpeningHours.value[0].openNow
  {
    match p.currentSecondaryOpeningHours
    case Some(hours) => if |hours| > 0 then hours[0].openNow else Some(false)
    case None => Some(false)
  }

  /** One element of the list comprehension in scan. */
  function NormalisePlace(p: RawPlace): (r: Result<Place, Fault>)
    ensures r.Success? <==> PlaceType(p).Success?
    ensures r.Failure? ==> r.error == PlaceType(p).error
    ensures r.Success? ==> && r.value.placeId == p.id
                           && r.value.displayName == p.displayName
                           && r.value.location == p.location
                           && r.value.placeType == PlaceType(p).value
                           && r.value.openNow == ScanOpenNow(p)
  {
    match PlaceType(p)
    case Failure(e) => Failure(e)
    case Success(t) => Success(Place(p.id, p.displayName, t, p.location, ScanOpenNow(p)))
  }

  /**
    The places of scan: one Place per raw place, in order, or the fault of
    the first raw place that cannot be normalised.
  */
  function Scan(places: seq<RawPlace>): (r: Result<seq<Place>, Fault>)
    ensures r.Success? <==> forall i :: 0 <= i < |places| ==> NormalisePlace(places[i]).Success?
    ensures r.Success? ==> |r.value| == |places|
    ensures r.Success? ==> forall i :: 0 <= i < |places| ==>
              && r.value[i] == NormalisePlace(places[i]).value
              && r.value[i].placeId == places[i].id
              && r.value[i].location == places[i].location
    ensures r.Failure? ==> exists i :: && 0 <= i < |places|
                                       && NormalisePlace(places[i]) == Failure(r.error)
                                       && forall j :: 0 <= j < i ==> NormalisePlace(places[j]).Success?
  {
    if places == [] then Success([])
    else
      match NormalisePlace(places[0])
      case Failure(e) => Failure(e)
      case Success(first) =>
        match Scan(places[1..])
        case Failure(e) => Failure(e)
        case Success(rest) => Success([first] + rest)
  }

  /**
    The PlaceDetail of get_place_detail for the payload `p` and the stored
    row `rec`.  The fields are built in order, so an unmapped type raises
    before a missing phone number does.
  */
  function PlaceDetailView(p: RawPlace, rec: PlaceRecord): (r: Result<PlaceDetail, Fault>)
    ensures r.Success? <==> PlaceType(p).Success? && p.internationalPhoneNumber.Some?
    ensures PlaceType(p).Failure? ==> r == Failure(PlaceType(p).error)
    ensures PlaceType(p).Success? && p.internationalPhoneNumber.None? ==> r == Failure(MissingField("internationalPhoneNumber"))
    ensures r.Success? ==> && r.value.placeId == p.id
                           && r.value.displayName == p.displayName
                           && r.value.location == p.location
                           && r.value.googleMapUri == p.googleMapsUri
                           && r.value.placeType == PlaceType(p).value
                           && r.value.phoneNumber == p.internationalPhoneNumber.value
                           && r.value.openNow == DetailOpenNow(p)
                           && r.value.safeRating == rec.safeRating
                           && r.value.sleepAvailable == rec.sleepAvailable
  {
    match PlaceType(p)
    case Failure(e) => Failure(e)
    case Success(t) =>
      match p.internationalPhoneNumber
      case None => Failure(MissingField("internationalPhoneNumber"))
      case Some(phone) =>
        Success(PlaceDetail(p.id, p.displayName, t, phone, p.location, p.googleMapsUri,
                            DetailOpenNow(p), rec.sleepAvailable, rec.safeRating))
  }

  /** Scan and the detail view report the same type for the same payload. */
  lemma ScanAndDetailAgreeOnType(p: RawPlace, rec: PlaceRecord)
    requires PlaceDetailView(p, rec).Success?
    ensures NormalisePlace(p).Success?
    ensures NormalisePlace(p).value.placeType == PlaceDetailView(p, rec).value.placeType
  {
  }

  /** A survey as the client sends it. */
  datatype PlaceSurvey = PlaceSurvey(surveyType: string, surveyValue: int)

  /** The status and message a route answers with. */
  datatype Response = Response(statusCode: int, message: string)

  const PlaceNotFound := Response(404, "Place not found")
  const InvalidSurveyType := Response(400, "Invalid survey type")
  const SurveyUpdated := Response(200, "Survey updated successfully")

  /** One survey applied to a row; None when the survey type is neither of the two known ones. */
  function ApplySurvey(rec: PlaceRecord, survey: PlaceSurvey): (r: Option<PlaceRecord>)
    ensures r.Some? <==> survey.surveyType in {"safe_rating", "sleep_available"}
    ensures r.Some? ==> r.value.displayName == rec.displayName
    ensures survey.surveyType == "safe_rating" ==>
              r.Some? && r.value.safeRating - rec.safeRating == survey.surveyValue
              && r.value.sleepAvailable == rec.sleepAvailable
    ensures survey.surveyType == "sleep_available" ==>
              r.Some? && r.value.sleepAvailable == survey.surveyValue
              && r.value.safeRating == rec.safeRating
  {
    if survey.surveyType == "safe_rating" then Some(rec.(safeRating := rec.safeRating + survey.surveyValue))
    else if survey.surveyType == "sleep_available" then Some(rec.(sleepAvailable := survey.surveyValue))
    else None
  }

  /** The row after a series of survey requests; a rejected survey leaves it as it was. */
  ghost function Replay(rec: PlaceRecord, surveys: seq<PlaceSurvey>): PlaceRecord
    decreases |surveys|
  {
    if surveys == [] then rec
    else
      var next := match ApplySurvey(rec, surveys[0]) case Some(r) => r case None => rec;
      Replay(next, surveys[1..])
  }

  /** The sum of the values of the safe_rating surveys. */
  ghost function SafeRatingTotal(surveys: seq<PlaceSurvey>): int
  {
    if surveys == [] then 0
    else (if surveys[0].surveyType == "safe_rating" then surveys[0].surveyValue else 0)
         + SafeRatingTotal(surveys[1..])
  }

  /** The value of the last sleep_available survey, or `initial` when there is none. */
  ghost function LastSleepValue(surveys: seq<PlaceSurvey>, initial: int): int
  {
    if surveys == [] then initial
    else if surveys[|surveys| - 1].surveyType == "sleep_available" then surveys[|surveys| - 1].surveyValue
    else LastSleepValue(surveys[..|surveys| - 1], initial)
  }

  /** safe_rating accumulates: after a series of surveys it has grown by the sum of their values. */
  lemma {:induction false} ReplayAccumulatesSafeRating(rec: PlaceRecord, surveys: seq<PlaceSurvey>)
    ensures Replay(rec, surveys).safeRating == rec.safeRating + SafeRatingTotal(surveys)
    ensures Replay(rec, surveys).displayName == rec.displayName
    decreases |surveys|
  {
    if surveys != [] {
      var next := match ApplySurvey(rec, surveys[0]) case Some(r) => r case None => rec;
      ReplayAccumulatesSafeRating(next, surveys[1..]);
    }
  }

  /** Replaying one more survey applies it to the replayed row. */
  lemma {:induction false} ReplayAppend(rec: PlaceRecord, surveys: seq<PlaceSurvey>, last: PlaceSurvey)
    ensures Replay(rec, surveys + [last])
         == match ApplySurvey(Replay(rec, surveys), last) case Some(r) => r case None => Replay(rec, surveys)
    decreases |surveys|
  {
    if surveys != [] {
      var next := match ApplySurvey(rec, surveys[0]) case Some(r) => r case None => rec;
      assert (surveys + [last])[1..] == surveys[1..] + [last];
      ReplayAppend(next, surveys[1..], last);
    } else {
      assert [last][1..] == [];
    }
  }

  /** sleep_available is overwritten: after a series of surveys it holds the last such survey's value. */
  lemma {:induction false} ReplayKeepsLastSleepValue(rec: PlaceRecord, surveys: seq<PlaceSurvey>)
    ensures Replay(rec, surveys).sleepAvailable == LastSleepValue(surveys, rec.sleepAvailable)
    decreases |surveys|
  {
    if surveys != [] {
      var init := surveys[..|surveys| - 1];
      var last := surveys[|surveys| - 1];
      assert surveys == init + [last];
      ReplayKeepsLastSleepValue(rec, init);
      ReplayAppend(rec, init, last);
    }
  }

  /** The place table of the database. */
  class PlaceTable {
    var records: map<PlaceId, PlaceRecord>
    /** Column defaults of a freshly created row (the table's definition is not part of this model). */
    const defaultSafeRating: int
    const defaultSleepAvailable: int

    /** The table as it stands, with the column defaults a new row receives. */
    constructor (existing: map<PlaceId, PlaceRecord>, defaultSafeRating: int, defaultSleepAvailable: int)
      ensures records == existing
      ensures this.defaultSafeRating == defaultSafeRating && this.defaultSleepAvailable == defaultSleepAvailable
    {
      records := existing;
      this.defaultSafeRating := defaultSafeRating;
      this.defaultSleepAvailable := defaultSleepAvailable;
    }

    /** The row get_or_create inserts for a place seen for the first time. */
    function NewRecord(displayName: string): (rec: PlaceRecord)
      ensures rec.displayName == displayName
      ensures rec.safeRating == defaultSafeRating && rec.sleepAvailable == defaultSleepAvailable
    {
      PlaceRecord(displayName, defaultSafeRating, defaultSleepAvailable)
    }

    /** get_or_create: the stored row, or a new row with the payload's display name. */
    method GetOrCreate(placeId: PlaceId, displayName: string) returns (rec: PlaceRecord)
      modifies this
      ensures placeId in old(records) ==> rec == old(records)[placeId] && records == old(records)
      ensures placeId !in old(records) ==> rec == NewRecord(displayName) && records == old(records)[placeId := rec]
    {
      if placeId in records {
        rec := records[placeId];
      } else {
        rec := NewRecord(displayName);
        records := records[placeId := rec];
      }
    }

    /**
      get_place_detail for the path's `placeId` and the API's payload `data`:
      the row is fetched or created first, so it exists afterwards even when
      building the response raises.
    */
    method GetPlaceDetail(placeId: PlaceId, data: RawPlace) returns (r: Result<PlaceDetail, Fault>)
      modifies this
      ensures placeId in records
      ensures placeId in old(records) ==> records == old(records)
      ensures placeId !in old(records) ==> records == old(records)[placeId := NewRecord(data.displayName)]
      ensures r == PlaceDetailView(data, records[placeId])
    {
      var rec := GetOrCreate(placeId, data.displayName);
      r := PlaceDetailView(data, rec);
    }

    /**
      survey_place: 404 for an unknown place, 400 for an unknown survey type;
      otherwise the row is updated and saved.  Only that row changes.
    */
    method SurveyPlace(placeId: PlaceId, survey: PlaceSurvey) returns (response: Response)
      modifies this
      ensures placeId !in old(records) ==> response == PlaceNotFound && records == old(records)
      ensures placeId in old(records) && ApplySurvey(old(records)[placeId], survey).None? ==>
                response == InvalidSurveyType && records == old(records)
      ensures placeId in old(records) && ApplySurvey(old(records)[placeId], survey).Some? ==>
                response == SurveyUpdated
                && records == old(records)[placeId := ApplySurvey(old(records)[placeId], survey).value]
    {
      if placeId !in records {
        return PlaceNotFound;
      }
      var placeModel := records[placeId];
      if survey.surveyType == "safe_rating" {
        placeModel := placeModel.(safeRating := placeModel.safeRating + survey.surveyValue);
      } else if survey.surveyType == "sleep_available" {
        placeModel := placeModel.(sleepAvailable := survey.surveyValue);
      } else {
        return InvalidSurveyType;
      }
      records := records[placeId := placeModel];
      response := SurveyUpdated;
    }
  }
}
