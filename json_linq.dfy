/**
  The part of Newtonsoft's LINQ-to-JSON (`JToken`) that the slot extraction
  touches: the string indexer, `FirstOrDefault` over a token's children,
  `ToString`, and `String.Split(c)[0]` on the resulting text. Null references
  are `None`; an exception is an explicit `Threw` outcome.
 */
module JsonLinq {
  import opened Wrappers
  import opened Json

  /** A JToken: a JSON value, or one property of an object (what enumerating an object yields). */
  datatype Token = Value(json: Json) | Property(name: string, value: Json)

  /** The exceptions the recognition call and the extraction can raise. */
  datatype Exception =
    | InvalidOperation         // string indexer on a JValue or a JProperty
    | Argument                 // string indexer on a JArray
    | NullReference            // member call on the null left by a failed `as` cast
    | InvalidCast              // `(string)` cast of a boxed value that is not a string
    | Service(message: string) // configuration, connection or service failure before recognition

  /** Either the value an expression returned or the exception it raised. */
  datatype Thrown<+T> = Returned(value: T) | Threw(error: Exception)

  predicate IsObject(t: Token) {
    t.Value? && t.json.Obj?
  }

  /**
    The tokens a token enumerates: an array's elements, an object's properties,
    a property's value. A scalar value has no children.
   */
  function Children(t: Token): seq<Token> {
    match t
    case Value(Arr(items)) => seq(|items|, i requires 0 <= i < |items| => Value(items[i]))
    case Value(Obj(members)) =>
      seq(|members|, i requires 0 <= i < |members| => Property(members[i].key, members[i].value))
    case Value(_) => []
    case Property(_, v) => [Value(v)]
  }

  /** `FirstOrDefault()` on a token: its first child, or null when it has none. */
  function FirstOrDefault(t: Token): (r: Option<Token>)
    ensures r == if |Children(t)| == 0 then None else Some(Children(t)[0])
  {
    match t
    case Value(Arr(items)) => if |items| == 0 then None else Some(Value(items[0]))
    case Value(Obj(members)) =>
      if |members| == 0 then None else Some(Property(members[0].key, members[0].value))
    case Value(_) => None
    case Property(_, v) => Some(Value(v))
  }

  /** The indexer `t[key]` with a string key: only an object accepts one. */
  function Item(t: Token, key: string): (r: Thrown<Option<Token>>)
    ensures r.Threw? <==> !IsObject(t)
    ensures IsObject(t) ==>
              (r.value.Some? <==> Lookup(t.json.members, key).Some?) &&
              (r.value.Some? ==> r.value.value == Value(Lookup(t.json.members, key).value))
  {
    match t
    case Value(Obj(members)) =>
      Returned(match Lookup(members, key) case None => None case Some(v) => Some(Value(v)))
    case Value(Arr(_)) => Threw(Argument)
    case _ => Threw(InvalidOperation)
  }

  /** One link of a null-conditional chain: the string indexer `[key]`, or `FirstOrDefault()`. */
  datatype Link = Index(key: string) | First

  /**
    Reference meaning of a `?.` chain of links applied to `t`: an index link
    raises on a non-object and gives a member or null; a `First` link takes the
    first of the token's children or null. A null stops the chain with null,
    an exception stops it with that exception.
   */
  function Chain(t: Token, links: seq<Link>): Thrown<Option<Token>>
    decreases |links|
  {
    if links == [] then Returned(Some(t))
    else match links[0]
      case Index(k) =>
        (if !IsObject(t) then Threw(if t.Value? && t.json.Arr? then Argument else InvalidOperation)
         else match Lookup(t.json.members, k)
           case None => Returned(None)
           case Some(v) => Chain(Value(v), links[1..]))
      case First =>
        if |Children(t)| == 0 then Returned(None) else Chain(Children(t)[0], links[1..])
  }

  /** A chain starting with link `l` is that link and then the rest. */
  lemma ChainCons(t: Token, l: Link, rest: seq<Link>)
    ensures Chain(t, [l] + rest) ==
            if Chain(t, [l]).Returned? && Chain(t, [l]).value.Some? then Chain(Chain(t, [l]).value.value, rest)
            else Chain(t, [l])
  {
  }

  /** A chain of concatenated links runs the first part and then the second from where it ends. */
  lemma {:induction false} ChainAppend(t: Token, p: seq<Link>, q: seq<Link>)
    ensures Chain(t, p + q) ==
            if Chain(t, p).Returned? && Chain(t, p).value.Some? then Chain(Chain(t, p).value.value, q)
            else Chain(t, p)
    decreases |p|
  {
    if p == [] {
      assert p + q == q;
    } else {
      var rest := p[1..];
      assert p == [p[0]] + rest;
      assert p + q == [p[0]] + (rest + q);
      ChainCons(t, p[0], rest + q);
      ChainCons(t, p[0], rest);
      if Chain(t, [p[0]]).Returned? && Chain(t, [p[0]]).value.Some? {
        ChainAppend(Chain(t, [p[0]]).value.value, rest, q);
      }
    }
  }

  /** Wherever a chain reaches a token without children, a `First` link ends it with null. */
  lemma ChildlessEndsChain(t: Token, p: seq<Link>, q: seq<Link>, u: Token)
    requires Chain(t, p) == Returned(Some(u)) && |Children(u)| == 0
    ensures Chain(t, p + [First] + q) == Returned(None)
  {
    assert p + [First] + q == p + ([First] + q);
    ChainAppend(t, p, [First] + q);
    ChainCons(u, First, q);
  }

  /** Wherever a chain reaches a token that is not an object, an index link raises. */
  lemma NonObjectRaisesInChain(t: Token, p: seq<Link>, key: string, q: seq<Link>, u: Token)
    requires Chain(t, p) == Returned(Some(u)) && !IsObject(u)
    ensures Chain(t, p + [Index(key)] + q).Threw?
  {
    assert p + [Index(key)] + q == p + ([Index(key)] + q);
    ChainAppend(t, p, [Index(key)] + q);
    ChainCons(u, Index(key), q);
  }

  /**
    `ToString()` on a token. A string value gives its own characters and a JSON
    null gives the empty text; every other token renders to some non-empty text.
   */
  function Text(t: Token): (r: string)
    ensures t.Value? && t.json.Str? ==> r == t.json.s
    ensures t.Value? && t.json.Null? ==> r == ""
    ensures !(t.Value? && (t.json.Str? || t.json.Null?)) ==> |r| > 0
  {
    match t
    case Value(Str(s)) => s
    case Value(Null) => ""
    case Value(Bool(b)) => if b then "True" else "False"
    case Value(j) => Serialize(j)
    case Property(name, v) => Quote(name) + ": " + Serialize(v)
  }

  function Quote(s: string): string {
    "\"" + s + "\""
  }

  /** Compact JSON text of a value (strings are not escaped). */
  function Serialize(j: Json): (r: string)
    ensures |r| > 0
  {
    match j
    case Null => "null"
    case Bool(b) => if b then "true" else "false"
    case Num(n) => IntText(n)
    case Str(s) => Quote(s)
    case Arr(items) =>
      "[" + Join(seq(|items|, i requires 0 <= i < |items| => Serialize(items[i]))) + "]"
    case Obj(members) =>
      "{" + Join(seq(|members|, i requires 0 <= i < |members| =>
                       Quote(members[i].key) + ":" + Serialize(members[i].value))) + "}"
  }

  /** The parts separated by commas. */
  function Join(parts: seq<string>): string {
    if |parts| == 0 then ""
    else if |parts| == 1 then parts[0]
    else parts[0] + "," + Join(parts[1..])
  }

  function IntText(n: int): (r: string)
    ensures |r| > 0
  {
    if n < 0 then "-" + NatText(-n) else NatText(n)
  }

  function NatText(n: nat): (r: string)
    ensures |r| > 0
  {
    if n < 10 then ["0123456789"[n]] else NatText(n / 10) + ["0123456789"[n % 10]]
  }

  /**
    `s.Split(sep)[0]`: the part of `s` before the first `sep`, or all of `s`
    when it has none. `Split` always yields at least one part, so this never fails.
   */
  function BeforeFirst(s: string, sep: char): (r: string)
    ensures r <= s
    ensures sep !in r
    ensures |r| < |s| ==> s[|r|] == sep
    ensures sep !in s ==> r == s
  {
    if |s| == 0 then ""
    else if s[0] == sep then ""
    else [s[0]] + BeforeFirst(s[1..], sep)
  }
}
