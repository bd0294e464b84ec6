/** Concrete recognizer results and what the extraction makes of them. */
module LuisSamples {
  import opened Wrappers
  import opened Json
  import opened JsonLinq
  import opened LuisHelper

  /** A composite airport entity as LUIS returns it: `[{"Airport": [[name]]}]`. */
  function AirportEntity(name: string): Json {
    Arr([Obj([Member("Airport", Arr([Arr([Str(name)])]))])])
  }

  /** A datetime entity: `[{"timex": [timex]}]`. */
  function DatetimeEntity(timex: string): Json {
    Arr([Obj([Member("timex", Arr([Str(timex)]))])])
  }

  /** Instance metadata for one entity: `{key: [{"text": value}]}`. */
  function InstanceText(key: string, value: Json): Json {
    Obj([Member(key, Arr([Obj([Member("text", value)])]))])
  }

  /** The structured path reads the airport name out of a composite airport entity. */
  lemma AirportEntityName(entities: seq<Member>, entityKey: string, name: string)
    requires Lookup(entities, entityKey) == Some(AirportEntity(name))
    ensures Structured(entities, entityKey) == Returned(Some(name))
  {
  }

  /** An `Airport` that is an object, not an array, yields the value of its first property. */
  lemma ObjectAirportFirstValue(entities: seq<Member>, entityKey: string, city: string)
    requires Lookup(entities, entityKey) == Some(Arr([Obj([Member("Airport", Obj([Member("city", Str(city))]))])]))
    ensures Structured(entities, entityKey) == Returned(Some(city))
  {
  }

  /** The timex path reads the timex text out of a datetime entity. */
  lemma DatetimeEntityTimex(entities: seq<Member>, timex: string)
    requires Lookup(entities, "datetime") == Some(DatetimeEntity(timex))
    ensures Timex(entities) == Returned(Some(timex))
  {
  }

  /** The split keeps exactly the text before a separator that the text itself does not contain. */
  lemma {:induction false} BeforeFirstOfConcat(date: string, rest: string, sep: char)
    requires sep !in date && |rest| > 0 && rest[0] == sep
    ensures BeforeFirst(date + rest, sep) == date
  {
    if date != [] {
      assert (date + rest)[1..] == date[1..] + rest;
      BeforeFirstOfConcat(date[1..], rest, sep);
    }
  }

  /** A complete extraction, assembled from its three steps. */
  lemma ExtractionOfSteps(r: RecognizerResult, d: Option<string>, o: Option<string>, t: Option<string>)
    requires r.topIntent == BookFlight
    requires Slot(r, "To") == Returned(d) && Slot(r, "From") == Returned(o)
    requires TravelDate(r.entities) == Returned(t)
    ensures Extraction(r) == Extracted(d, o, t, None)
  {
  }

  function ParisLondon(): seq<Member> {
    [Member("To", AirportEntity("Paris")),
     Member("From", AirportEntity("London")),
     Member("datetime", DatetimeEntity("2024-05-01T08:00"))]
  }

  lemma ParisLondonDate()
    ensures TravelDate(ParisLondon()) == Returned(Some("2024-05-01"))
  {
    DatetimeEntityTimex(ParisLondon(), "2024-05-01T08:00");
    DatePartOfSampleTimex();
  }

  lemma DatePartOfSampleTimex()
    ensures BeforeFirst("2024-05-01T08:00", 'T') == "2024-05-01"
  {
    assert "2024-05-01" + "T08:00" == "2024-05-01T08:00";
    BeforeFirstOfConcat("2024-05-01", "T08:00", 'T');
  }

  /** All three slots through the structured paths; the time part of the timex is dropped. */
  lemma StructuredHappyPath()
    ensures Extraction(RecognizerResult(BookFlight, ParisLondon())) ==
            Extracted(Some("Paris"), Some("London"), Some("2024-05-01"), None)
  {
    var r := RecognizerResult(BookFlight, ParisLondon());
    AirportEntityName(r.entities, "To", "Paris");
    AirportEntityName(r.entities, "From", "London");
    ParisLondonDate();
    ExtractionOfSteps(r, Some("Paris"), Some("London"), Some("2024-05-01"));
  }

  /** Without a structured `To`, the destination comes from the instance text. */
  lemma InstanceFallback()
    ensures var r := RecognizerResult(BookFlight, [Member(InstanceKey, InstanceText("To", Str("Berlin")))]);
            Extraction(r) == Extracted(Some("Berlin"), None, None, None)
  {
  }

  /** A `From` that appears nowhere leaves the origin null and raises nothing. */
  lemma MissingOrigin()
    ensures var r := RecognizerResult(BookFlight, [Member("To", AirportEntity("Paris"))]);
            Extraction(r) == Extracted(Some("Paris"), None, None, None)
  {
  }

  /** Instance text that is a nested structure is not a JValue: the lookup gives null. */
  lemma NestedInstanceText()
    ensures var r := RecognizerResult(BookFlight, [Member(InstanceKey, InstanceText("To", Arr([Str("Berlin")])))]);
            GetEntity(Some(r), "To") == Returned(None) &&
            Extraction(r) == Extracted(None, None, None, None)
  {
  }

  /** Instance text that is a number fails the string cast; the catch keeps the booking empty. */
  lemma NumericInstanceText()
    ensures var r := RecognizerResult(BookFlight, [Member(InstanceKey, InstanceText("To", Num(7)))]);
            Extraction(r) == Extracted(None, None, None, Some(InvalidCast))
  {
  }

  /** A `From` entity whose first element is a bare string cannot be indexed by `"Airport"`. */
  lemma OriginShapeMismatch()
    ensures var r := RecognizerResult(BookFlight, [
                       Member("To", AirportEntity("Paris")),
                       Member("From", Arr([Str("London")])),
                       Member("datetime", DatetimeEntity("2024-05-01"))]);
            Extraction(r) == Extracted(Some("Paris"), None, None, Some(InvalidOperation))
  {
    var r := RecognizerResult(BookFlight, [
               Member("To", AirportEntity("Paris")),
               Member("From", Arr([Str("London")])),
               Member("datetime", DatetimeEntity("2024-05-01"))]);
    AirportEntityName(r.entities, "To", "Paris");
    assert FirstItem(r.entities, "From", "Airport") == Threw(InvalidOperation);
  }

  /** What a caller of the query method can rely on, for the happy path and a service failure. */
  method QueryClient() {
    var r := RecognizerResult(BookFlight, ParisLondon());
    StructuredHappyPath();
    var booking, warned := ExecuteLuisQuery(Returned(r));
    assert booking.destination == Some("Paris") && booking.origin == Some("London");
    assert booking.travelDate == Some("2024-05-01") && !warned;

    var again, warnedAgain := ExecuteLuisQuery(Returned(r));
    assert again.destination == booking.destination && again.origin == booking.origin;
    assert again.travelDate == booking.travelDate && warnedAgain == warned;

    var failed, logged := ExecuteLuisQuery(Threw(Service("unauthorized")));
    assert failed.destination == None && failed.origin == None && failed.travelDate == None;
    assert logged;
  }
}
