/** `_jsonable` and `serialize_response_items` of app/mappers/response_mapper.py. */
module Serialization {
  import opened Values
  import Wrappers

  predicate Private(name: string) {
    name != "" && name[0] == '_'
  }

  /** Drops null fields at every level and turns objects into dicts. */
  function Jsonable(v: Value): Value {
    match v
    case List(xs) => List(seq(|xs|, i requires 0 <= i < |xs| => Jsonable(xs[i])))
    case Dict(m) => Dict(map k | k in m && m[k] != Null :: Jsonable(m[k]))
    case Object(m) => Dict(map k | k in m && m[k] != Null && !Private(k) :: Jsonable(m[k]))
    case _ => v
  }

  /** Plain JSON without a null-valued field anywhere. */
  predicate NormalForm(v: Value) {
    match v
    case List(xs) => forall i | 0 <= i < |xs| :: NormalForm(xs[i])
    case Dict(m) => forall k | k in m :: m[k] != Null && NormalForm(m[k])
    case Object(_) => false
    case _ => true
  }

  /** Replayed items never drift: serialising gives a normal form ... */
  lemma {:induction false} JsonableNormal(v: Value)
    ensures NormalForm(Jsonable(v))
    ensures Jsonable(v) == Null <==> v == Null
  {
    match v
    case List(xs) =>
      forall i | 0 <= i < |xs| ensures NormalForm(Jsonable(xs[i])) { JsonableNormal(xs[i]); }
    case Dict(m) =>
      forall k | k in m && m[k] != Null ensures NormalForm(Jsonable(m[k])) && Jsonable(m[k]) != Null {
        JsonableNormal(m[k]);
      }
    case Object(m) =>
      forall k | k in m && m[k] != Null ensures NormalForm(Jsonable(m[k])) && Jsonable(m[k]) != Null {
        JsonableNormal(m[k]);
      }
    case _ =>
  }

  /** ... and the normal forms are exactly the values that serialising leaves alone. */
  lemma {:induction false} JsonableFixesNormalForms(v: Value)
    ensures NormalForm(v) <==> Jsonable(v) == v
  {
    JsonableNormal(v);
    if NormalForm(v) {
      JsonableKeepsNormal(v);
    }
  }

  lemma {:induction false} JsonableKeepsNormal(v: Value)
    requires NormalForm(v)
    ensures Jsonable(v) == v
  {
    match v
    case List(xs) =>
      forall i | 0 <= i < |xs| ensures Jsonable(xs[i]) == xs[i] { JsonableKeepsNormal(xs[i]); }
      assert Jsonable(v).items == xs;
    case Dict(m) =>
      forall k | k in m ensures Jsonable(m[k]) == m[k] { JsonableKeepsNormal(m[k]); }
      assert Jsonable(v).fields == m;
    case _ =>
  }

  /** Any number of further serialisations changes nothing. */
  lemma {:induction false} JsonableIdempotent(v: Value)
    ensures Jsonable(Jsonable(v)) == Jsonable(v)
  {
    JsonableNormal(v);
    JsonableKeepsNormal(Jsonable(v));
  }

  /** A position in a JSON tree. */
  datatype PathStep = Field(name: string) | Index(i: nat)

  /** What is visible at a path: null fields and private attributes of objects cannot be entered. */
  function At(v: Value, path: seq<PathStep>): (r: Wrappers.Option<Value>)
    decreases |path|
  {
    if path == [] then Wrappers.Some(v)
    else
      match (v, path[0])
      case (List(xs), Index(i)) => if i < |xs| then At(xs[i], path[1..]) else Wrappers.None
      case (Dict(m), Field(k)) => if k in m && m[k] != Null then At(m[k], path[1..]) else Wrappers.None
      case (Object(m), Field(k)) =>
        if k in m && m[k] != Null && !(|k| > 0 && k[0] == '_') then At(m[k], path[1..]) else Wrappers.None
      case _ => Wrappers.None
  }

  /** Serialising loses nothing visible: same paths, and at each path the serialised subtree. */
  lemma {:induction false} JsonableKeepsEveryPath(v: Value, path: seq<PathStep>)
    ensures At(Jsonable(v), path) ==
            match At(v, path) { case None => Wrappers.None case Some(w) => Wrappers.Some(Jsonable(w)) }
    decreases |path|
  {
    if path != [] {
      match (v, path[0])
      case (List(xs), Index(i)) => if i < |xs| { JsonableKeepsEveryPath(xs[i], path[1..]); }
      case (Dict(m), Field(k)) =>
        if k in m && m[k] != Null { JsonableNormal(m[k]); JsonableKeepsEveryPath(m[k], path[1..]); }
      case (Object(m), Field(k)) =>
        if k in m && m[k] != Null && !Private(k) { JsonableNormal(m[k]); JsonableKeepsEveryPath(m[k], path[1..]); }
      case _ =>
    }
  }

  /** The fields that survive: those that are not null, and in an object do not begin with an underscore. */
  lemma FieldsKept(fields: map<string, Value>)
    ensures Jsonable(Dict(fields)).Dict? && Jsonable(Object(fields)).Dict?
    ensures forall k :: k in Jsonable(Dict(fields)).fields <==> k in fields && fields[k] != Null
    ensures forall k :: k in Jsonable(Object(fields)).fields <==>
                        k in fields && fields[k] != Null && (k == "" || k[0] != '_')
  {
  }

  /** [_jsonable(item) for item in output] */
  function Serialize(output: seq<Value>): seq<Value> {
    seq(|output|, i requires 0 <= i < |output| => Jsonable(output[i]))
  }
}
