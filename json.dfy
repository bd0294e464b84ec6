/**
  Parsed JSON values as the recognizer hands them over, and a reference walker
  that follows a path of keys and indices through them.
 */
module Json {
  import opened Wrappers

  /** A JSON value. Numbers are integers here; objects keep their members in order. */
  datatype Json =
    | Null
    | Bool(b: bool)
    | Num(n: int)
    | Str(s: string)
    | Arr(items: seq<Json>)
    | Obj(members: seq<Member>)

  datatype Member = Member(key: string, value: Json)

  /** The values that Newtonsoft represents as a JValue (as opposed to a container). */
  predicate IsScalar(j: Json) {
    j.Null? || j.Bool? || j.Num? || j.Str?
  }

  /** The value of the first member called `key`, if an object has one. */
  function Lookup(members: seq<Member>, key: string): (r: Option<Json>)
    ensures r.Some? ==> Member(key, r.value) in members
    ensures r.None? <==> forall m :: m in members ==> m.key != key
  {
    if |members| == 0 then None
    else if members[0].key == key then Some(members[0].value)
    else Lookup(members[1..], key)
  }

  /** A `JObject` never holds two members with the same key. */
  predicate UniqueKeys(members: seq<Member>) {
    forall i, j :: 0 <= i < j < |members| ==> members[i].key != members[j].key
  }

  /** With unique keys, the first member called `key` is the only one: lookup finds exactly the members present. */
  lemma LookupUnique(members: seq<Member>, key: string, v: Json)
    requires UniqueKeys(members)
    ensures Lookup(members, key) == Some(v) <==> Member(key, v) in members
  {
  }

  /** One step of a path: a member name or an array position. */
  datatype Step = Key(name: string) | At(index: nat)

  /**
    Where a path leads: to a value, to nothing because a key or index is missing,
    or to nothing because a step met the wrong kind of value (a key on a non-object,
    an index on a non-array).
   */
  datatype Walked = Found(value: Json) | Absent | Mismatch

  function WalkStep(j: Json, s: Step): Walked {
    match s
    case Key(k) =>
      if !j.Obj? then Mismatch
      else (match Lookup(j.members, k)
            case None => Absent
            case Some(v) => Found(v))
    case At(i) =>
      if !j.Arr? then Mismatch
      else if i < |j.items| then Found(j.items[i])
      else Absent
  }

  /** Follows `path` from `j`, stopping at the first step that does not lead to a value. */
  function Walk(j: Json, path: seq<Step>): Walked
    decreases |path|
  {
    if path == [] then Found(j)
    else match WalkStep(j, path[0])
      case Found(v) => Walk(v, path[1..])
      case other => other
  }

  /** Walking a path that starts with `s` is one step and then the rest. */
  lemma WalkCons(j: Json, s: Step, rest: seq<Step>)
    ensures WalkStep(j, s).Found? ==> Walk(j, [s] + rest) == Walk(WalkStep(j, s).value, rest)
    ensures !WalkStep(j, s).Found? ==> Walk(j, [s] + rest) == WalkStep(j, s)
  {
  }

  /** Walking a concatenated path is walking the first part and then the second from where it ends. */
  lemma {:induction false} WalkAppend(j: Json, p: seq<Step>, q: seq<Step>)
    ensures Walk(j, p + q) == match Walk(j, p) case Found(v) => Walk(v, q) case other => other
    decreases |p|
  {
    if p == [] {
      assert p + q == q;
    } else {
      assert (p + q)[0] == p[0];
      assert (p + q)[1..] == p[1..] + q;
      match WalkStep(j, p[0])
      case Found(v) => WalkAppend(v, p[1..], q);
      case Absent =>
      case Mismatch =>
    }
  }
}
