/** JSON values as Python's `json.loads` yields them, and the dictionary the scripts fill. */
module Json {
  datatype Json =
    | Null
    | Bool(b: bool)
    | Int(i: int)
    | Float(r: real)
    | Str(s: string)
    | List(items: seq<Json>)
    | Obj(fields: map<string, Json>)

  type Fields = map<string, Json>

  /** `value if isinstance(value, dict) else {}`. */
  function Mapping(v: Json): Fields { if v.Obj? then v.fields else map[] }

  /** `mapping.get(key)`: a missing key and a JSON null both read as None. */
  function Get(m: Fields, key: string): Json { if key in m then m[key] else Null }

  function Items(v: Json): seq<Json> { if v.List? then v.items else [] }
}

/** Python dictionaries keyed by strings: a map that remembers first-insertion order. */
module Dict {
  import opened Orders

  datatype Dict<V> = Dict(keys: seq<string>, vals: map<string, V>) {
    ghost predicate Valid() {
      && Distinct(keys)
      && (forall k :: k in keys <==> k in vals)
    }

    predicate Has(k: string) { k in vals }

    function Put(k: string, v: V): (d: Dict<V>)
      requires Valid()
      ensures d.Valid() && d.vals == vals[k := v]
      ensures d.keys == if k in vals then keys else keys + [k]
    {
      Dict(if k in vals then keys else keys + [k], vals[k := v])
    }
  }

  function Empty<V>(): (d: Dict<V>)
    ensures d.Valid() && d.keys == [] && d.vals == map[]
  {
    Dict([], map[])
  }
}
