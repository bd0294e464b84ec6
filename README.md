# Slot extraction of the flight-booking LUIS helper

`LuisHelper.cs` sends the user's utterance to a LUIS app and then reads a
booking out of the recognizer's answer. This project models that second part.
It gates on the top intent `Book_flight`. It then fills the destination (entity
`To`), the origin (entity `From`) and the travel date (entity `datetime`). Each
value is copied into a fresh `BookingDetails` object, one field after another,
inside a catch-all `try`.

Modules, one file each:

- `Wrappers` (`wrappers.dfy`): `Option`, for C# null.
- `Json` (`json.dfy`): the parsed entity tree (`Json`, `Member`), object
  member lookup (with `UniqueKeys`, the shape of a real `JObject`), and `Walk`. `Walk` follows a path of keys and indices and
  says whether it found a value, stopped at a missing step (`Absent`) or met
  the wrong kind of value (`Mismatch`). It is the reference that the lookups
  are proved against.
- `JsonLinq` (`json_linq.dfy`): the small part of Newtonsoft's `JToken`
  that the helper uses. This is the string indexer (`Item`),
  `FirstOrDefault` over a token's children, `ToString` (`Text`) and
  `Split(c)[0]` (`BeforeFirst`). Exceptions are an explicit `Thrown` outcome,
  and `Exception` names the kinds the code can raise. `Chain` is the second
  reference: the meaning of any null-conditional chain of `[key]` and
  `FirstOrDefault()` links over tokens. It differs from `Walk` exactly where
  `FirstOrDefault` meets something other than an array.
- `LuisHelper` (`luis_helper.dfy`): `GetEntity` and the structured paths as
  functions, `Extraction`/`Execute` (what the `try` block leaves behind),
  the `BookingDetails` class, and the method `ExecuteLuisQuery`. The method
  does the assignments in the source's order. It stands for the `try` with a
  labeled block that an exception `break`s out of.
- `LuisProperties` (`luis_properties.dfy`): these lemmas tie the lookups to
  `Walk` paths, and they cover the intent gate, fail-open, fallback-only-on-null
  and the order in which fields survive an exception.
- `LuisSamples` (`luis_samples.dfy`): concrete recognizer results and what
  the extraction makes of them, plus a client of `ExecuteLuisQuery`.

Behaviour worth knowing, taken from the code:

- The lookups are null-safe only against missing values, not against wrong
  shapes. `GetEntity` casts with `as` and then calls a method on the result
  without a null check. So if `$instance` is not an object, the entity is not
  an array, or its first element is not an object, it raises
  `NullReferenceException`. A number or boolean value fails the `(string)`
  cast with `InvalidCastException`. A JSON `null` value is a `JValue` whose
  boxed value is null, so the cast gives null and nothing is raised. In the
  structured paths, `["Airport"]` or `["timex"]` raises when the entity's first
  child is not an object: `ArgumentException` on an array, `InvalidOperationException`
  on a scalar or on the first property of an object. The catch-all turns any of
  these into "the fields filled so far". So the lookups are not uniformly
  "null on any mismatch", as the null-conditional style suggests. This model
  follows the code.
- `FirstOrDefault` on an object returns its first property, and on a scalar
  returns null. `Token.Property` models the property. So a scalar entity gives
  null, an entity that is an object raises at `["Airport"]`, and an `Airport`
  that is an object such as `{"city": "Paris"}` gives the text of its first
  property's value, "Paris".
- The destination's fallback runs only when the structured path returned
  null. If the structured path raises, no fallback is tried.

## Model

| member | source | states |
|---|---|---|
| `LuisHelper.ExecuteLuisQuery` | LuisHelper.cs:19-62 | returns a fresh booking whose three fields are those of `Execute` for the recognition outcome; a warning is logged exactly when an exception was caught |
| `LuisHelper.BookingDetails.constructor` | LuisHelper.cs:21 | a new booking has all three fields null |
| `LuisHelper.GetEntity` | LuisHelper.cs:64-94 | a null recognizer result gives default (null); the only exceptions raised are a null dereference after a failed cast and an invalid string cast |
| `LuisHelper.FirstItem` | LuisHelper.cs:41 | the entity's first child's member `sub`: equal for every input to the chain entity/first/`sub`; a value found at entity/0/`sub` is returned, a missing step gives null, and it raises exactly when the entity exists, has a first child, and that child is not an object |
| `LuisHelper.Structured` | LuisHelper.cs:41 | the airport expression (also used for `From` at line 46) is, for every input, the text of where the chain entity/first/`Airport`/first/first ends: null, an exception, or a token |
| `LuisHelper.Timex` | LuisHelper.cs:53 | the timex expression is, for every input, the text of where the chain `datetime`/first/`timex`/first ends |
| `LuisHelper.CastToString` | LuisHelper.cs:82-85 | the `(string)` cast of a JValue's content: a string passes unchanged, a JSON null gives null, and a number or boolean raises `InvalidCast`, each exactly in its case |
| `LuisProperties.GetEntityFollowsInstancePath` | LuisHelper.cs:66-93 | the lookup is exactly the reference meaning of the path `$instance`/key/0/property: missing step gives null, wrong shape raises, container gives null, scalar is cast |
| `LuisProperties.GetEntityDefaultOnAbsence` | LuisHelper.cs:66-93 | gives null for a null result, no `$instance`, no entity key, an empty array, no value property, a value that is not a JValue, or a JSON null |
| `LuisProperties.GetEntityReturnsText` | LuisHelper.cs:64-85 | returns string s exactly when the path ends in the string s; without a property name the property `text` is used |
| `LuisProperties.GetEntityThrows` | LuisHelper.cs:71-85 | raises exactly when a step meets the wrong shape or the value is a number or boolean |
| `LuisProperties.StructuredFollowsAirportPath` | LuisHelper.cs:41 | `Structured`: a value at the end of key/0/`Airport`/0/0 is returned as its text; a missing step gives null; raises exactly when the entity's first child is not an object |
| `LuisProperties.TimexFollowsPath` | LuisHelper.cs:53 | `Timex`: a value at the end of `datetime`/0/`timex`/0 is read as its text; a missing step gives null; raises exactly when the first `datetime` child is not an object |
| `LuisProperties.StructuredOnOtherShapes` | LuisHelper.cs:41 | a scalar or empty entity gives null; an object entity raises `InvalidOperation`; an `Airport` without children, or whose first child has none, gives null; an object `Airport` gives the text of its first property's value |
| `LuisProperties.TimexOnOtherShapes` | LuisHelper.cs:53 | a scalar or empty `datetime` gives null; an object `datetime` raises `InvalidOperation`; a `timex` without children gives null; an object `timex` gives the text of its first property |
| `LuisProperties.TravelDateIsDatePart` | LuisHelper.cs:53 | `TravelDate`: the travel date is the prefix of the timex before its first `T`, contains no `T`, is the whole text when it has none; failure and null pass through |
| `LuisProperties.SlotFallsBackOnlyOnNull` | LuisHelper.cs:41-49 | `Slot`: the structured value when there is one, the `$instance` text (property `text`) only when the structured path gave null, and a structured exception passed on without trying the fallback; a slot raises only if one of the two lookups does |
| `LuisProperties.IntentGate` | LuisHelper.cs:37-54 | `Execute`: for any top intent other than `Book_flight` the booking is all null and nothing is raised |
| `LuisProperties.FailOpen` | LuisHelper.cs:23-61 | `Execute`: an exception before recognition leaves every field null and is the caught exception |
| `LuisProperties.DestinationFallsBackOnlyOnNull` | LuisHelper.cs:41-44 | the destination is the structured `To` value when there is one, the `$instance` text only when that was null; an exception in either step leaves the whole booking null |
| `LuisProperties.OriginFallsBackOnlyOnNull` | LuisHelper.cs:46-49 | the same rule for `From`; an exception there keeps the destination and leaves origin and date null |
| `LuisProperties.PartialResultsKeepOrder` | LuisHelper.cs:41-59 | `Extraction`: a set field holds what its own step computed and every earlier step completed; after an exception the travel date is null and some step raised; without one every field is its step's value |
| `JsonLinq.FirstOrDefault` | LuisHelper.cs:41 | the first of the token's `Children` (array elements, object properties, a property's value; none for a scalar), or null when there are none |
| `JsonLinq.Text` | LuisHelper.cs:41 | `ToString()`: a string value gives its own characters, a JSON null the empty text, and every other token a non-empty text |
| `JsonLinq.Item` | LuisHelper.cs:41 | the string indexer raises exactly on a non-object and otherwise gives the member's value or null |
| `JsonLinq.ChainAppend` | LuisHelper.cs:41 | a chain of links `p + q` is `p` followed by `q` from the token where `p` ended; null or an exception after `p` ends the whole chain |
| `JsonLinq.ChildlessEndsChain` | LuisHelper.cs:41 | wherever a chain reaches a token without children, a following `FirstOrDefault()` ends it with null, whatever comes after |
| `JsonLinq.NonObjectRaisesInChain` | LuisHelper.cs:41 | wherever a chain reaches a token that is not an object, a following `[key]` raises |
| `JsonLinq.BeforeFirst` | LuisHelper.cs:53 | `Split(sep)[0]` is a prefix without `sep`, followed in the text by `sep` when shorter, and the whole text when `sep` does not occur |
| `Json.Lookup` | LuisHelper.cs:71-80 | `TryGetValue` finds a member with that key, and fails exactly when no member has it |
| `Json.LookupUnique` | LuisHelper.cs:71-80 | on an object with unique keys, as every `JObject` has, lookup gives v exactly when the member (key, v) is present |
| `LuisSamples.AirportEntityName` | LuisHelper.cs:41 | a composite airport entity `[{"Airport": [[name]]}]` yields name |
| `LuisSamples.ObjectAirportFirstValue` | LuisHelper.cs:41 | `[{"Airport": {"city": c}}]` yields c, the value of the first property |
| `LuisSamples.DatetimeEntityTimex` | LuisHelper.cs:53 | a datetime entity `[{"timex": [t]}]` yields t |
| `LuisSamples.BeforeFirstOfConcat` | LuisHelper.cs:53 | splitting `date + "T..."` at `T` gives date when date has no `T` |
| `LuisSamples.StructuredHappyPath` | LuisHelper.cs:41-53 | To Paris, From London, timex `2024-05-01T08:00` give Paris, London, `2024-05-01` |
| `LuisSamples.InstanceFallback` | LuisHelper.cs:41-44 | with no structured `To`, `$instance.To[0].text` Berlin gives destination Berlin |
| `LuisSamples.MissingOrigin` | LuisHelper.cs:46-49 | a `From` found nowhere leaves the origin null and raises nothing |
| `LuisSamples.NestedInstanceText` | LuisHelper.cs:82-93 | an instance text that is an array gives default, not an exception |
| `LuisSamples.NumericInstanceText` | LuisHelper.cs:85 | an instance text that is a number fails the cast and the booking stays empty |
| `LuisSamples.OriginShapeMismatch` | LuisHelper.cs:46 | a `From` whose first element is a bare string raises at `["Airport"]`; the destination already filled is kept |

## Left out

- Building the `LuisApplication` and `LuisRecognizer` from configuration, and the `RecognizeAsync` network call (LuisHelper.cs:26-35). These are library and network calls. Their outcome is an input instead: a `RecognizerResult`, or `Threw(Service(message))` for an exception raised before recognition finished.
- `GetTopScoringIntent` (LuisHelper.cs:37): scoring is done by the library, so the top intent is a field of the input. The score is not used and not modelled.
- Logging (LuisHelper.cs:58) is I/O.
- LuisHelper.ExecuteLuisQuery: the logged warning is only the boolean `warned`, not the text of the warning. Exception messages of library exceptions are not modelled.
- Async/await and the `CancellationToken` (LuisHelper.cs:19, 35) are concurrency plumbing. A cancellation is just one more `Service` failure.
- `ToString()` of tokens that are not strings uses a simplified compact rendering (`Text`/`Serialize`). Newtonsoft indents containers and escapes strings. No property depends on this layout.
- JSON numbers are integers. Floating point is not modelled.
- The `Json` values admit objects with repeated keys, which a `JObject` cannot hold; `Lookup` then takes the first member. `UniqueKeys` names the real domain, and `LookupUnique` shows that on it the first match is the only one. No other property depends on this.
- `GetEntity<T>` is modelled only for `T = string`, the one instantiation the helper uses. Casts to other types are not modelled.
- `RecognizerResult.Entities` is always an object here. A null `Entities` is not modelled: a real recognizer never returns one.
- A `null` `luisResult` is modelled for `GetEntity` (`Option`), although `ExecuteLuisQuery` always passes a result.
- Idempotence: the extraction is a function of its input. The assertions in `LuisSamples.QueryClient` state that two calls on the same result give equal bookings. It has no contract of its own.
