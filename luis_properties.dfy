/**
  What the slot extraction promises, stated against the reference path walker
  of module Json and against the order in which the booking fields are filled.
 */
module LuisProperties {
  import opened Wrappers
  import opened Json
  import opened JsonLinq
  import opened LuisHelper

  /** `$instance` → entity → first element → value property. */
  function InstancePath(entityKey: string, valuePropertyName: string): seq<Step> {
    [Key(InstanceKey), Key(entityKey), At(0), Key(valuePropertyName)]
  }

  /** entity → first element → `Airport` → first element → first element. */
  function AirportPath(entityKey: string): seq<Step> {
    [Key(entityKey), At(0), Key("Airport"), At(0), At(0)]
  }

  /** `datetime` → first element → `timex` → first element. */
  function TimexPath(): seq<Step> {
    [Key("datetime"), At(0), Key("timex"), At(0)]
  }

  /**
    Reference meaning of the `$instance` lookup: a missing step gives null, a
    wrong-shaped step raises, a container at the end gives null, and a scalar
    at the end is cast to a string.
   */
  function InstanceOutcome(w: Walked): Thrown<Option<string>> {
    match w
    case Absent => Returned(None)
    case Mismatch => Threw(NullReference)
    case Found(v) => if IsScalar(v) then CastToString(v) else Returned(None)
  }

  /** `GetEntity` is exactly the reference meaning of the `$instance` path. */
  lemma {:induction false} GetEntityFollowsInstancePath(r: RecognizerResult, entityKey: string, valuePropertyName: string)
    ensures GetEntity(Some(r), entityKey, valuePropertyName) ==
            InstanceOutcome(Walk(Obj(r.entities), InstancePath(entityKey, valuePropertyName)))
  {
    var p := valuePropertyName;
    assert InstancePath(entityKey, p) == [Key(InstanceKey)] + ([Key(entityKey)] + ([At(0)] + ([Key(p)] + [])));
    WalkCons(Obj(r.entities), Key(InstanceKey), [Key(entityKey)] + ([At(0)] + ([Key(p)] + [])));
    match Lookup(r.entities, InstanceKey)
    case None =>
    case Some(value) =>
      WalkCons(value, Key(entityKey), [At(0)] + ([Key(p)] + []));
      if value.Obj? {
        match Lookup(value.members, entityKey)
        case None =>
        case Some(target) =>
          WalkCons(target, At(0), [Key(p)] + []);
          if target.Arr? && |target.items| > 0 {
            var values := target.items[0];
            WalkCons(values, Key(p), []);
            if values.Obj? {
              match Lookup(values.members, p)
              case None =>
              case Some(v) => assert Walk(v, []) == Found(v);
            }
          }
      }
  }

  /** The lookup gives null whenever the chain is broken by something missing, or ends in a container. */
  lemma GetEntityDefaultOnAbsence(luisResult: Option<RecognizerResult>, entityKey: string, valuePropertyName: string)
    ensures luisResult.None? ==> GetEntity(luisResult, entityKey, valuePropertyName) == Returned(None)
    ensures luisResult.Some? ==>
              var root := Obj(luisResult.value.entities);
              var full := Walk(root, InstancePath(entityKey, valuePropertyName));
              (Walk(root, [Key(InstanceKey)]) == Absent ||
               Walk(root, [Key(InstanceKey), Key(entityKey)]) == Absent ||
               Walk(root, [Key(InstanceKey), Key(entityKey)]) == Found(Arr([])) ||
               full == Absent ||
               (full.Found? && !IsScalar(full.value)) ||
               full == Found(Null))
              ==> GetEntity(luisResult, entityKey, valuePropertyName) == Returned(None)
  {
    if luisResult.Some? {
      var r, k, p := luisResult.value, entityKey, valuePropertyName;
      var root := Obj(r.entities);
      GetEntityFollowsInstancePath(r, k, p);
      assert InstancePath(k, p) == [Key(InstanceKey)] + [Key(k), At(0), Key(p)];
      WalkAppend(root, [Key(InstanceKey)], [Key(k), At(0), Key(p)]);
      assert InstancePath(k, p) == [Key(InstanceKey), Key(k)] + [At(0), Key(p)];
      WalkAppend(root, [Key(InstanceKey), Key(k)], [At(0), Key(p)]);
      if Walk(root, [Key(InstanceKey), Key(k)]) == Found(Arr([])) {
        WalkCons(Arr([]), At(0), [Key(p)]);
      }
    }
  }

  /** A string at the end of the `$instance` path is returned as it is, and only then is a string returned. */
  lemma GetEntityReturnsText(r: RecognizerResult, entityKey: string, valuePropertyName: string, s: string)
    ensures GetEntity(Some(r), entityKey, valuePropertyName) == Returned(Some(s)) <==>
            Walk(Obj(r.entities), InstancePath(entityKey, valuePropertyName)) == Found(Str(s))
    ensures GetEntity(Some(r), entityKey) == Returned(Some(s)) <==>
            Walk(Obj(r.entities), InstancePath(entityKey, "text")) == Found(Str(s))
  {
    GetEntityFollowsInstancePath(r, entityKey, valuePropertyName);
    GetEntityFollowsInstancePath(r, entityKey, "text");
  }

  /**
    The lookup raises exactly when a step meets the wrong shape (`$instance` not an
    object, the entity not an array, its first element not an object), or when the
    value found is a number or a boolean, which the string cast rejects.
   */
  lemma GetEntityThrows(r: RecognizerResult, entityKey: string, valuePropertyName: string)
    ensures var w := Walk(Obj(r.entities), InstancePath(entityKey, valuePropertyName));
            GetEntity(Some(r), entityKey, valuePropertyName).Threw? <==>
            (w == Mismatch || (w.Found? && (w.value.Num? || w.value.Bool?)))
  {
    GetEntityFollowsInstancePath(r, entityKey, valuePropertyName);
  }

  /**
    The structured airport path: a value at its end is returned as text, a missing
    step gives null, and it raises exactly when the entity's first child is not an object.
   */
  lemma {:induction false} StructuredFollowsAirportPath(entities: seq<Member>, entityKey: string)
    ensures Walk(Obj(entities), AirportPath(entityKey)).Found? ==>
              Structured(entities, entityKey) ==
              Returned(Some(Text(Value(Walk(Obj(entities), AirportPath(entityKey)).value))))
    ensures Walk(Obj(entities), AirportPath(entityKey)) == Absent ==>
              Structured(entities, entityKey) == Returned(None)
    ensures Structured(entities, entityKey).Threw? <==>
            Lookup(entities, entityKey).Some? &&
            FirstOrDefault(Value(Lookup(entities, entityKey).value)).Some? &&
            !IsObject(FirstOrDefault(Value(Lookup(entities, entityKey).value)).value)
  {
    var k := entityKey;
    assert AirportPath(k) == [Key(k)] + ([At(0)] + ([Key("Airport")] + ([At(0)] + ([At(0)] + []))));
    WalkCons(Obj(entities), Key(k), [At(0)] + ([Key("Airport")] + ([At(0)] + ([At(0)] + []))));
    match Lookup(entities, k)
    case None =>
    case Some(group) =>
      WalkCons(group, At(0), [Key("Airport")] + ([At(0)] + ([At(0)] + [])));
      if group.Arr? && |group.items| > 0 {
        var first := group.items[0];
        WalkCons(first, Key("Airport"), [At(0)] + ([At(0)] + []));
        if first.Obj? {
          match Lookup(first.members, "Airport")
          case None =>
          case Some(airport) =>
            WalkCons(airport, At(0), [At(0)] + []);
            if airport.Arr? && |airport.items| > 0 {
              var list := airport.items[0];
              WalkCons(list, At(0), []);
              if list.Arr? && |list.items| > 0 {
                assert Walk(list.items[0], []) == Found(list.items[0]);
              }
            }
        }
      }
  }

  /**
    The timex path: a value at its end is the timex read, as text; a missing step
    gives null; it raises exactly when the first `datetime` child is not an object.
   */
  lemma TimexFollowsPath(entities: seq<Member>)
    ensures Walk(Obj(entities), TimexPath()).Found? ==>
              Timex(entities) == Returned(Some(Text(Value(Walk(Obj(entities), TimexPath()).value))))
    ensures Walk(Obj(entities), TimexPath()) == Absent ==> Timex(entities) == Returned(None)
    ensures Timex(entities).Threw? <==>
            Lookup(entities, "datetime").Some? &&
            FirstOrDefault(Value(Lookup(entities, "datetime").value)).Some? &&
            !IsObject(FirstOrDefault(Value(Lookup(entities, "datetime").value)).value)
  {
  }

  /**
    The structured airport path on the shapes where `FirstOrDefault` does not
    meet an array: a scalar or empty container gives null, an object entity
    yields its first property, on which `["Airport"]` raises, and an object
    `Airport` yields the value of its first property.
   */
  lemma StructuredOnOtherShapes(entities: seq<Member>, entityKey: string, airport: Token)
    ensures Lookup(entities, entityKey).Some? && |Children(Value(Lookup(entities, entityKey).value))| == 0 ==>
              Structured(entities, entityKey) == Returned(None)
    ensures Lookup(entities, entityKey).Some? && Lookup(entities, entityKey).value.Obj? &&
            |Lookup(entities, entityKey).value.members| > 0 ==>
              Structured(entities, entityKey) == Threw(InvalidOperation)
    ensures FirstItem(entities, entityKey, "Airport") == Returned(Some(airport)) && |Children(airport)| == 0 ==>
              Structured(entities, entityKey) == Returned(None)
    ensures FirstItem(entities, entityKey, "Airport") == Returned(Some(airport)) && |Children(airport)| > 0 &&
            |Children(Children(airport)[0])| == 0 ==>
              Structured(entities, entityKey) == Returned(None)
    ensures FirstItem(entities, entityKey, "Airport") == Returned(Some(airport)) &&
            airport.Value? && airport.json.Obj? && |airport.json.members| > 0 ==>
              Structured(entities, entityKey) == Returned(Some(Text(Value(airport.json.members[0].value))))
  {
  }

  /**
    The timex path on the same shapes: a scalar or empty container where a first
    child is taken gives null, an object entity raises at `["timex"]`, and an
    object `timex` yields its first property, whose text is read.
   */
  lemma TimexOnOtherShapes(entities: seq<Member>, timex: Token)
    ensures Lookup(entities, "datetime").Some? && |Children(Value(Lookup(entities, "datetime").value))| == 0 ==>
              Timex(entities) == Returned(None)
    ensures Lookup(entities, "datetime").Some? && Lookup(entities, "datetime").value.Obj? &&
            |Lookup(entities, "datetime").value.members| > 0 ==>
              Timex(entities) == Threw(InvalidOperation)
    ensures FirstItem(entities, "datetime", "timex") == Returned(Some(timex)) && |Children(timex)| == 0 ==>
              Timex(entities) == Returned(None)
    ensures FirstItem(entities, "datetime", "timex") == Returned(Some(timex)) &&
            timex.Value? && timex.json.Obj? && |timex.json.members| > 0 ==>
              Timex(entities) == Returned(Some(Text(Property(timex.json.members[0].key, timex.json.members[0].value))))
  {
  }

  /**
    The travel date is the date part of the timex text: the prefix before its
    first `'T'`, holding no `'T'`, and the whole text when there is none.
    Failure and absence carry over unchanged.
   */
  lemma TravelDateIsDatePart(entities: seq<Member>)
    ensures TravelDate(entities).Threw? <==> Timex(entities).Threw?
    ensures TravelDate(entities) == Returned(None) <==> Timex(entities) == Returned(None)
    ensures Timex(entities).Returned? && Timex(entities).value.Some? ==>
              var t := Timex(entities).value.value;
              TravelDate(entities).Returned? && TravelDate(entities).value.Some? &&
              var d := TravelDate(entities).value.value;
              d <= t && 'T' !in d && (|d| < |t| ==> t[|d|] == 'T') && ('T' !in t ==> d == t)
  {
  }

  /**
    An airport slot uses the structured value when there is one, consults the
    `$instance` text only when the structured path gave null, and passes on an
    exception of the structured path without trying the fallback.
   */
  lemma SlotFallsBackOnlyOnNull(r: RecognizerResult, entityKey: string)
    ensures Structured(r.entities, entityKey).Threw? ==> Slot(r, entityKey) == Structured(r.entities, entityKey)
    ensures Structured(r.entities, entityKey).Returned? && Structured(r.entities, entityKey).value.Some? ==>
              Slot(r, entityKey) == Structured(r.entities, entityKey)
    ensures Structured(r.entities, entityKey) == Returned(None) ==>
              Slot(r, entityKey) == GetEntity(Some(r), entityKey, "text")
    ensures Slot(r, entityKey).Threw? ==>
              Structured(r.entities, entityKey).Threw? || GetEntity(Some(r), entityKey).Threw?
  {
  }

  /** Any top intent other than `Book_flight` leaves all three fields null, whatever the entities. */
  lemma IntentGate(recognition: Thrown<RecognizerResult>)
    requires recognition.Returned? && recognition.value.topIntent != BookFlight
    ensures Execute(recognition) == Extracted(None, None, None, None)
  {
  }

  /** A failure before recognition is caught: the booking stays empty and a warning is logged. */
  lemma FailOpen(recognition: Thrown<RecognizerResult>)
    requires recognition.Threw?
    ensures Execute(recognition).destination.None?
    ensures Execute(recognition).origin.None?
    ensures Execute(recognition).travelDate.None?
    ensures Execute(recognition).failure == Some(recognition.error)
  {
  }

  /**
    The destination is the structured `To` value when there is one; only when
    that path gives null is the `$instance` text consulted.
   */
  lemma DestinationFallsBackOnlyOnNull(r: RecognizerResult)
    requires r.topIntent == BookFlight
    ensures Structured(r.entities, "To").Returned? && Structured(r.entities, "To").value.Some? ==>
              Extraction(r).destination == Structured(r.entities, "To").value
    ensures Structured(r.entities, "To") == Returned(None) && GetEntity(Some(r), "To").Returned? ==>
              Extraction(r).destination == GetEntity(Some(r), "To").value
    ensures Structured(r.entities, "To").Threw? ==>
              Extraction(r) == Extracted(None, None, None, Some(Structured(r.entities, "To").error))
    ensures Structured(r.entities, "To") == Returned(None) && GetEntity(Some(r), "To").Threw? ==>
              Extraction(r) == Extracted(None, None, None, Some(GetEntity(Some(r), "To").error))
  {
  }

  /** The same rule for the origin and the `From` entity, once the destination step has completed. */
  lemma OriginFallsBackOnlyOnNull(r: RecognizerResult)
    requires r.topIntent == BookFlight && Slot(r, "To").Returned?
    ensures Structured(r.entities, "From").Returned? && Structured(r.entities, "From").value.Some? ==>
              Extraction(r).origin == Structured(r.entities, "From").value
    ensures Structured(r.entities, "From") == Returned(None) && GetEntity(Some(r), "From").Returned? ==>
              Extraction(r).origin == GetEntity(Some(r), "From").value
    ensures Slot(r, "From").Threw? ==>
              Extraction(r) == Extracted(Slot(r, "To").value, None, None, Some(Slot(r, "From").error))
  {
  }

  /**
    Fields are filled in the order destination, origin, travel date. A field that
    is set holds what its own step computed, every step before it completed, and
    after an exception the later fields stay null.
   */
  lemma PartialResultsKeepOrder(r: RecognizerResult)
    ensures Extraction(r).destination.Some? ==> Slot(r, "To") == Returned(Extraction(r).destination)
    ensures Extraction(r).origin.Some? ==>
              Slot(r, "To") == Returned(Extraction(r).destination) &&
              Slot(r, "From") == Returned(Extraction(r).origin)
    ensures Extraction(r).travelDate.Some? ==>
              Extraction(r).failure.None? &&
              Slot(r, "To") == Returned(Extraction(r).destination) &&
              Slot(r, "From") == Returned(Extraction(r).origin) &&
              TravelDate(r.entities) == Returned(Extraction(r).travelDate)
    ensures Extraction(r).failure.Some? ==>
              r.topIntent == BookFlight && Extraction(r).travelDate.None? &&
              (Slot(r, "To").Threw? || Slot(r, "From").Threw? || TravelDate(r.entities).Threw?)
    ensures Extraction(r).failure.None? && r.topIntent == BookFlight ==>
              Slot(r, "To") == Returned(Extraction(r).destination) &&
              Slot(r, "From") == Returned(Extraction(r).origin) &&
              TravelDate(r.entities) == Returned(Extraction(r).travelDate)
  {
  }
}
