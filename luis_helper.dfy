/**
  The slot extraction of the flight-booking bot's LUIS helper: after the
  recognizer has classified an utterance, the destination, origin and travel
  date are read out of its entity tree into a `BookingDetails` object.
 */
module LuisHelper {
  import opened Wrappers
  import opened Json
  import opened JsonLinq

  /** The only intent whose entities are read. */
  const BookFlight := "Book_flight"
  /** The reserved entity holding the raw text spans of every recognized entity. */
  const InstanceKey := "$instance"

  /** What the recognizer returns: its top-scoring intent and the `Entities` object. */
  datatype RecognizerResult = RecognizerResult(topIntent: string, entities: seq<Member>)

  /** The booking record. Every field starts out null and is set as its slot is extracted. */
  class BookingDetails {
    var destination: Option<string>
    var origin: Option<string>
    var travelDate: Option<string>

    constructor ()
      ensures destination == None && origin == None && travelDate == None
    {
      destination, origin, travelDate := None, None, None;
    }
  }

  /**
    The `(string)` cast of a JValue's boxed content: a string passes, a null box
    gives null, and a number or boolean is rejected.
   */
  function CastToString(v: Json): (r: Thrown<Option<string>>)
    requires IsScalar(v)
    ensures r.Threw? <==> v.Num? || v.Bool?
    ensures r.Threw? ==> r.error == InvalidCast
    ensures r == Returned(None) <==> v.Null?
    ensures v.Str? <==> r.Returned? && r.value.Some?
    ensures v.Str? ==> r.value.value == v.s
  {
    match v
    case Str(s) => Returned(Some(s))
    case Null => Returned(None)
    case _ => Threw(InvalidCast)
  }

  /**
    `GetEntity<string>(luisResult, entityKey, valuePropertyName)`: the raw
    `$instance[entityKey][0][valuePropertyName]` text of an entity. Each `as`
    cast that fails leaves a null on which the next call raises.
   */
  function GetEntity(luisResult: Option<RecognizerResult>, entityKey: string,
                     valuePropertyName: string := "text"): (r: Thrown<Option<string>>)
    ensures luisResult.None? ==> r == Returned(None)
    ensures r.Threw? ==> r.error == NullReference || r.error == InvalidCast
  {
    if luisResult.None? then Returned(None)
    else
      var data := luisResult.value.entities;
      match Lookup(data, InstanceKey)
      case None => Returned(None)
      case Some(value) =>
        if !value.Obj? then Threw(NullReference)
        else match Lookup(value.members, entityKey)
          case None => Returned(None)
          case Some(targetEntity) =>
            if !targetEntity.Arr? then Threw(NullReference)
            else if |targetEntity.items| == 0 then Returned(None)
            else
              var values := targetEntity.items[0];
              if !values.Obj? then Threw(NullReference)
              else match Lookup(values.members, valuePropertyName)
                case None => Returned(None)
                case Some(textValue) =>
                  if IsScalar(textValue) then CastToString(textValue) else Returned(None)
  }

  /** The chain of the structured airport path: entity, first child, `Airport`, first, first. */
  function AirportChain(entityKey: string): seq<Link> {
    [Index(entityKey), First, Index("Airport"), First, First]
  }

  /** The chain of the timex path: `datetime`, first child, `timex`, first. */
  function TimexChain(): seq<Link> {
    [Index("datetime"), First, Index("timex"), First]
  }

  /** The outcome of a chain that ends in `ToString()`. */
  function TextOf(c: Thrown<Option<Token>>): Thrown<Option<string>> {
    match c
    case Threw(e) => Threw(e)
    case Returned(None) => Returned(None)
    case Returned(Some(t)) => Returned(Some(Text(t)))
  }

  /**
    The common head of the structured paths: the entity's value in `Entities`,
    its first child, and that child's member `subKey`. A missing entity or child
    gives null; indexing a child that is not an object raises.
   */
  function FirstItem(entities: seq<Member>, entityKey: string, subKey: string): (r: Thrown<Option<Token>>)
    ensures r.Threw? <==>
            Lookup(entities, entityKey).Some? &&
            FirstOrDefault(Value(Lookup(entities, entityKey).value)).Some? &&
            !IsObject(FirstOrDefault(Value(Lookup(entities, entityKey).value)).value)
    ensures r == Chain(Value(Obj(entities)), [Index(entityKey), First, Index(subKey)])
    ensures Walk(Obj(entities), [Key(entityKey), At(0), Key(subKey)]) == Absent ==> r == Returned(None)
    ensures Walk(Obj(entities), [Key(entityKey), At(0), Key(subKey)]).Found? ==>
              r == Returned(Some(Value(Walk(Obj(entities), [Key(entityKey), At(0), Key(subKey)]).value)))
  {
    WalkCons(Obj(entities), Key(entityKey), [At(0), Key(subKey)]);
    ChainCons(Value(Obj(entities)), Index(entityKey), [First, Index(subKey)]);
    match Lookup(entities, entityKey)
    case None => Returned(None)
    case Some(group) =>
      WalkCons(group, At(0), [Key(subKey)]);
      ChainCons(Value(group), First, [Index(subKey)]);
      match FirstOrDefault(Value(group))
      case None => Returned(None)
      case Some(Property(name, v)) =>
        ChainCons(Property(name, v), Index(subKey), []);
        Item(Property(name, v), subKey)
      case Some(Value(first)) =>
        WalkCons(first, Key(subKey), []);
        ChainCons(Value(first), Index(subKey), []);
        Item(Value(first), subKey)
  }

  /**
    The structured airport path: the member `Airport` of the entity's first child,
    then the first element of its first element, as text.
   */
  function Structured(entities: seq<Member>, entityKey: string): (r: Thrown<Option<string>>)
    ensures r == TextOf(Chain(Value(Obj(entities)), AirportChain(entityKey)))
  {
    assert AirportChain(entityKey) == [Index(entityKey), First, Index("Airport")] + [First, First];
    ChainAppend(Value(Obj(entities)), [Index(entityKey), First, Index("Airport")], [First, First]);
    match FirstItem(entities, entityKey, "Airport")
    case Threw(e) => Threw(e)
    case Returned(None) => Returned(None)
    case Returned(Some(airport)) =>
      ChainCons(airport, First, [First]);
      match FirstOrDefault(airport)
      case None => Returned(None)
      case Some(list) =>
        ChainCons(list, First, []);
        match FirstOrDefault(list)
        case None => Returned(None)
        case Some(name) => Returned(Some(Text(name)))
  }

  /** The raw timex: the member `timex` of the first `datetime` child, then its first element, as text. */
  function Timex(entities: seq<Member>): (r: Thrown<Option<string>>)
    ensures r == TextOf(Chain(Value(Obj(entities)), TimexChain()))
  {
    assert TimexChain() == [Index("datetime"), First, Index("timex")] + [First];
    ChainAppend(Value(Obj(entities)), [Index("datetime"), First, Index("timex")], [First]);
    match FirstItem(entities, "datetime", "timex")
    case Threw(e) => Threw(e)
    case Returned(None) => Returned(None)
    case Returned(Some(timex)) =>
      ChainCons(timex, First, []);
      match FirstOrDefault(timex)
      case None => Returned(None)
      case Some(first) => Returned(Some(Text(first)))
  }

  /** The travel date: the timex text up to its first `'T'`, i.e. its date part. */
  function TravelDate(entities: seq<Member>): Thrown<Option<string>> {
    match Timex(entities)
    case Threw(e) => Threw(e)
    case Returned(None) => Returned(None)
    case Returned(Some(t)) => Returned(Some(BeforeFirst(t, 'T')))
  }

  /** An airport slot: the structured path, and the `$instance` text only when that gave null. */
  function Slot(r: RecognizerResult, entityKey: string): Thrown<Option<string>> {
    match Structured(r.entities, entityKey)
    case Threw(e) => Threw(e)
    case Returned(Some(s)) => Returned(Some(s))
    case Returned(None) => GetEntity(Some(r), entityKey)
  }

  /** The three fields after the protected block, and the exception that ended it, if any. */
  datatype Extracted = Extracted(destination: Option<string>, origin: Option<string>,
                                 travelDate: Option<string>, failure: Option<Exception>)

  const Empty := Extracted(None, None, None, None)

  /**
    What the try block leaves behind for a recognizer result: slots are filled
    in the order destination, origin, travel date, and an exception stops the
    block with the fields filled so far.
   */
  function Extraction(r: RecognizerResult): Extracted {
    if r.topIntent != BookFlight then Empty
    else match Slot(r, "To")
      case Threw(e) => Extracted(None, None, None, Some(e))
      case Returned(destination) =>
        match Slot(r, "From")
        case Threw(e) => Extracted(destination, None, None, Some(e))
        case Returned(origin) =>
          match TravelDate(r.entities)
          case Threw(e) => Extracted(destination, origin, None, Some(e))
          case Returned(date) => Extracted(destination, origin, date, None)
  }

  /** The whole query, given how the recognition call itself ended. */
  function Execute(recognition: Thrown<RecognizerResult>): Extracted {
    match recognition
    case Threw(e) => Extracted(None, None, None, Some(e))
    case Returned(r) => Extraction(r)
  }

  /**
    `ExecuteLuisQuery` after the recognition call: fills a fresh booking inside a
    catch-all block. `warned` says whether the catch logged a warning.
   */
  method ExecuteLuisQuery(recognition: Thrown<RecognizerResult>)
    returns (bookingDetails: BookingDetails, warned: bool)
    ensures fresh(bookingDetails)
    ensures bookingDetails.destination == Execute(recognition).destination
    ensures bookingDetails.origin == Execute(recognition).origin
    ensures bookingDetails.travelDate == Execute(recognition).travelDate
    ensures warned <==> Execute(recognition).failure.Some?
  {
    bookingDetails := new BookingDetails();
    var caught: Option<Exception> := None;
    label Try: {
      if recognition.Threw? {
        caught := Some(recognition.error);
        break Try;
      }
      var recognizerResult := recognition.value;
      if recognizerResult.topIntent == BookFlight {
        var to := Structured(recognizerResult.entities, "To");
        if to.Threw? { caught := Some(to.error); break Try; }
        bookingDetails.destination := to.value;
        if bookingDetails.destination == None {
          var fallback := GetEntity(Some(recognizerResult), "To");
          if fallback.Threw? { caught := Some(fallback.error); break Try; }
          bookingDetails.destination := fallback.value;
        }

        var from := Structured(recognizerResult.entities, "From");
        if from.Threw? { caught := Some(from.error); break Try; }
        bookingDetails.origin := from.value;
        if bookingDetails.origin == None {
          var fallback := GetEntity(Some(recognizerResult), "From");
          if fallback.Threw? { caught := Some(fallback.error); break Try; }
          bookingDetails.origin := fallback.value;
        }

        var date := TravelDate(recognizerResult.entities);
        if date.Threw? { caught := Some(date.error); break Try; }
        bookingDetails.travelDate := date.value;
      }
    }
    warned := caught.Some?;
  }
}
