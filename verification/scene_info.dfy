/** The scene metadata store of libcore (SceneInfo.cpp): four independent
    string-keyed maps, one per value type float, int64_t, bool and
    std::string. The C++ template parameter T of `set<T>`, `get<T>` and
    `has<T>` is modelled by a `Kind`, and a value of type T by a `Value`
    of that kind. */
module SceneMetadata {
  import opened Wrappers
  import opened Values

  /** The four template instantiations of SceneInfo_NEW_TYPE. */
  datatype Kind = FloatKind | Int64Kind | BoolKind | StringKind

  /** A value of one of the four stored types. */
  datatype Value =
    | FloatValue(f: Float)
    | Int64Value(i: Int64)
    | BoolValue(b: bool)
    | StringValue(s: string)
  {
    function KindOf(): Kind
    {
      match this
      case FloatValue(_) => FloatKind
      case Int64Value(_) => Int64Kind
      case BoolValue(_) => BoolKind
      case StringValue(_) => StringKind
    }
  }

  datatype SceneInfo = SceneInfo(
    floatMap: map<string, Float>,
    int64Map: map<string, Int64>,
    boolMap: map<string, bool>,
    stringMap: map<string, string>)

  /** A default-constructed SceneInfo: all four maps empty. */
  const Empty: SceneInfo := SceneInfo(map[], map[], map[], map[])

  /** The entry for `name` in the map of `kind`, as `map.find(name)` sees it. */
  function Find(s: SceneInfo, kind: Kind, name: string): Option<Value>
  {
    match kind
    case FloatKind => if name in s.floatMap then Some(FloatValue(s.floatMap[name])) else None
    case Int64Kind => if name in s.int64Map then Some(Int64Value(s.int64Map[name])) else None
    case BoolKind => if name in s.boolMap then Some(BoolValue(s.boolMap[name])) else None
    case StringKind => if name in s.stringMap then Some(StringValue(s.stringMap[name])) else None
  }

  /** The value-initialised `T()` of each stored type: 0.0f, 0, false and "". */
  function Default(kind: Kind): (v: Value)
    ensures v.KindOf() == kind
  {
    match kind
    case FloatKind => FloatValue(FloatZero)
    case Int64Kind => Int64Value(0)
    case BoolKind => BoolValue(false)
    case StringKind => StringValue("")
  }

  /** `set<T>(name, value)`: `map[name] = value` in the map of the value's type.
      The value is stored under `name`, and every other (type, name) entry,
      including `name` in the other three maps, is unchanged. */
  function Set(s: SceneInfo, name: string, v: Value): (r: SceneInfo)
    ensures Find(r, v.KindOf(), name) == Some(v)
    ensures forall k: Kind, n: string :: k != v.KindOf() || n != name ==> Find(r, k, n) == Find(s, k, n)
  {
    match v
    case FloatValue(f) => s.(floatMap := s.floatMap[name := f])
    case Int64Value(i) => s.(int64Map := s.int64Map[name := i])
    case BoolValue(b) => s.(boolMap := s.boolMap[name := b])
    case StringValue(t) => s.(stringMap := s.stringMap[name := t])
  }

  /** The `int` overload of `set`: the 32-bit value is widened and stored in the int64 map. */
  function SetInt(s: SceneInfo, name: string, v: Int32): (r: SceneInfo)
    ensures Find(r, Int64Kind, name).Some?
    ensures Find(r, Int64Kind, name).value.Int64Value?
    ensures Find(r, Int64Kind, name).value.i as int == v as int
    ensures forall k: Kind, n: string :: k != Int64Kind || n != name ==> Find(r, k, n) == Find(s, k, n)
  {
    Set(s, name, Int64Value(v as int as Int64))
  }

  /** `get<T>(name)`: the stored value when the map of T holds `name`, and
      `T()` otherwise. The result always has the requested type. */
  function Get(s: SceneInfo, kind: Kind, name: string): (v: Value)
    ensures v.KindOf() == kind
    ensures Find(s, kind, name).Some? ==> Find(s, kind, name) == Some(v)
    ensures Find(s, kind, name).None? ==> v == Default(kind)
  {
    match Find(s, kind, name)
    case Some(x) => x
    case None => Default(kind)
  }

  /** The names held by the map of `kind`. */
  function Names(s: SceneInfo, kind: Kind): set<string>
  {
    match kind
    case FloatKind => s.floatMap.Keys
    case Int64Kind => s.int64Map.Keys
    case BoolKind => s.boolMap.Keys
    case StringKind => s.stringMap.Keys
  }

  /** `has<T>(name)`: whether `name` is a key of the map of T. */
  function Has(s: SceneInfo, kind: Kind, name: string): (b: bool)
    ensures b <==> name in Names(s, kind)
    ensures b <==> Find(s, kind, name).Some?
  {
    Find(s, kind, name).Some?
  }

  /** `a.merged(b)`: a copy of `a` in which, map by map, every entry of `b`
      overrides the entry of `a` with the same name. */
  function Merged(a: SceneInfo, b: SceneInfo): (r: SceneInfo)
    ensures forall k: Kind, n: string :: Find(b, k, n).Some? ==> Find(r, k, n) == Find(b, k, n)
    ensures forall k: Kind, n: string :: Find(b, k, n).None? ==> Find(r, k, n) == Find(a, k, n)
    ensures forall k: Kind :: Names(r, k) == Names(a, k) + Names(b, k)
  {
    SceneInfo(a.floatMap + b.floatMap, a.int64Map + b.int64Map,
              a.boolMap + b.boolMap, a.stringMap + b.stringMap)
  }

  /** One loop of `merged`: `result.map[item.first] = item.second` for every
      item of `from`, starting from a copy of `into`. */
  method OverrideEach<T>(into: map<string, T>, from: map<string, T>) returns (r: map<string, T>)
    ensures r.Keys == into.Keys + from.Keys
    ensures forall n :: n in from ==> r[n] == from[n]
    ensures forall n :: n in into && n !in from ==> r[n] == into[n]
  {
    r := into;
    var todo := from.Keys;
    while todo != {}
      invariant todo <= from.Keys
      invariant r.Keys == into.Keys + (from.Keys - todo)
      invariant forall n :: n in from && n !in todo ==> r[n] == from[n]
      invariant forall n :: n in into && (n !in from || n in todo) ==> r[n] == into[n]
      decreases todo
    {
      var n :| n in todo;
      r := r[n := from[n]];
      todo := todo - {n};
    }
  }

  /** `merged` as written: copy the receiver, then run the four assignment
      loops. Neither argument is changed (both are values), and the result
      is the store `Merged` describes. */
  method MergedByAssignment(a: SceneInfo, b: SceneInfo) returns (r: SceneInfo)
    ensures r == Merged(a, b)
  {
    r := a;
    var ints := OverrideEach(r.int64Map, b.int64Map);
    r := r.(int64Map := ints);
    var floats := OverrideEach(r.floatMap, b.floatMap);
    r := r.(floatMap := floats);
    var bools := OverrideEach(r.boolMap, b.boolMap);
    r := r.(boolMap := bools);
    var strings := OverrideEach(r.stringMap, b.stringMap);
    r := r.(stringMap := strings);
  }

  /** After `set(name, v)`, `get` of v's type returns v and `has` is true. */
  lemma SetThenGet(s: SceneInfo, name: string, v: Value)
    ensures Get(Set(s, name, v), v.KindOf(), name) == v
    ensures Has(Set(s, name, v), v.KindOf(), name)
  {
  }

  /** A second `set` of the same type and name overwrites the first. */
  lemma SetOverwrites(s: SceneInfo, name: string, v1: Value, v2: Value)
    requires v1.KindOf() == v2.KindOf()
    ensures Set(Set(s, name, v1), name, v2) == Set(s, name, v2)
  {
  }

  /** Setting a value of one type leaves `get` and `has` of every other type
      unchanged, even for the same name. */
  lemma SetLeavesOtherKinds(s: SceneInfo, name: string, v: Value, k: Kind, n: string)
    requires k != v.KindOf()
    ensures Get(Set(s, name, v), k, n) == Get(s, k, n)
    ensures Has(Set(s, name, v), k, n) == Has(s, k, n)
    ensures Names(Set(s, name, v), k) == Names(s, k)
  {
  }

  /** `get` of an absent name returns 0.0f, 0, false or "" by type. */
  lemma GetAbsentIsDefault(s: SceneInfo, name: string)
    ensures !Has(s, FloatKind, name) ==> Get(s, FloatKind, name) == FloatValue(FloatZero)
    ensures !Has(s, Int64Kind, name) ==> Get(s, Int64Kind, name) == Int64Value(0)
    ensures !Has(s, BoolKind, name) ==> Get(s, BoolKind, name) == BoolValue(false)
    ensures !Has(s, StringKind, name) ==> Get(s, StringKind, name) == StringValue("")
  {
  }

  /** Storing an `int` is storing the same number as an `int64_t`. */
  lemma SetIntWidens(s: SceneInfo, name: string, v: Int32)
    ensures SetInt(s, name, v) == Set(s, name, Int64Value(v as int as Int64))
    ensures Get(SetInt(s, name, v), Int64Kind, name).i as int == v as int
  {
  }

  /** Merging with an empty store on either side, or with itself, changes nothing. */
  lemma MergedIdentities(a: SceneInfo)
    ensures Merged(a, Empty) == a
    ensures Merged(Empty, a) == a
    ensures Merged(a, a) == a
  {
  }

  /** Merging is associative: the rightmost store wins on every collision. */
  lemma MergedAssociative(a: SceneInfo, b: SceneInfo, c: SceneInfo)
    ensures Merged(Merged(a, b), c) == Merged(a, Merged(b, c))
  {
    UnionAssociative(a.floatMap, b.floatMap, c.floatMap);
    UnionAssociative(a.int64Map, b.int64Map, c.int64Map);
    UnionAssociative(a.boolMap, b.boolMap, c.boolMap);
    UnionAssociative(a.stringMap, b.stringMap, c.stringMap);
  }

  lemma UnionAssociative<T>(x: map<string, T>, y: map<string, T>, z: map<string, T>)
    ensures (x + y) + z == x + (y + z)
  {
    assert ((x + y) + z).Keys == (x + (y + z)).Keys;
    forall n | n in (x + y) + z
      ensures ((x + y) + z)[n] == (x + (y + z))[n]
    {
    }
  }

  /** Merging in a store that holds one entry is the same as setting that entry. */
  lemma MergedSingleIsSet(a: SceneInfo, name: string, v: Value)
    ensures Merged(a, Set(Empty, name, v)) == Set(a, name, v)
  {
  }
}
