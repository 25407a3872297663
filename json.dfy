/**
 * A decoded JSON document, and the Ruby `Hash` operations the core applies to
 * one. A hash keeps its insertion order, so an object is a list of fields;
 * reading a missing key answers `JNull`, as Ruby's `hash[key]` answers nil.
 */
module Json {
  import opened Wrappers
  import opened Text

  datatype Json =
    | JNull
    | JBool(b: bool)
    | JNum(n: int)
    | JStr(s: string)
    | JArray(items: seq<Json>)
    | JObject(fields: seq<Field>)

  datatype Field = Field(key: string, value: Json)

  /** `Hash#key?`. */
  predicate Has(fields: seq<Field>, key: string) {
    |fields| > 0 && (fields[0].key == key || Has(fields[1..], key))
  }

  /** An entry at any position makes its key present. */
  lemma {:induction false} HasEntry(fields: seq<Field>, i: nat)
    requires i < |fields|
    ensures Has(fields, fields[i].key)
  {
    if i > 0 {
      HasEntry(fields[1..], i - 1);
    }
  }

  /** A key no entry carries is absent. */
  lemma {:induction false} AbsentKey(fields: seq<Field>, key: string)
    requires forall i :: 0 <= i < |fields| ==> fields[i].key != key
    ensures !Has(fields, key)
  {
    if |fields| > 0 {
      AbsentKey(fields[1..], key);
    }
  }

  /** Every key occurs once, as in any Ruby hash. */
  predicate UniqueKeys(fields: seq<Field>) {
    forall i, j :: 0 <= i < j < |fields| ==> fields[i].key != fields[j].key
  }

  /** `hash[key]`: the value stored under `key`, or nil. */
  function At(fields: seq<Field>, key: string): (r: Json)
    ensures !Has(fields, key) ==> r == JNull
  {
    if |fields| == 0 then JNull
    else if fields[0].key == key then fields[0].value
    else At(fields[1..], key)
  }

  /** In a hash with unique keys, every entry is what its key reads. */
  lemma {:induction false} AtEntry(fields: seq<Field>, i: nat)
    requires UniqueKeys(fields) && i < |fields|
    ensures At(fields, fields[i].key) == fields[i].value
  {
    if i > 0 {
      AtEntry(fields[1..], i - 1);
    }
  }

  /** `hash[key] = v`: overwrites in place when the key is there, appends otherwise. */
  function Put(fields: seq<Field>, key: string, v: Json): (r: seq<Field>)
    ensures Has(r, key) && At(r, key) == v
    ensures Has(fields, key) ==> |r| == |fields|
    ensures !Has(fields, key) ==> r == fields + [Field(key, v)]
  {
    if |fields| == 0 then [Field(key, v)]
    else if fields[0].key == key then [Field(key, v)] + fields[1..]
    else [fields[0]] + Put(fields[1..], key, v)
  }

  /** Setting one key leaves every other key as it was. */
  lemma {:induction false} PutOther(fields: seq<Field>, key: string, v: Json, k: string)
    requires k != key
    ensures Has(Put(fields, key, v), k) <==> Has(fields, k)
    ensures At(Put(fields, key, v), k) == At(fields, k)
  {
    if |fields| > 0 && fields[0].key != key {
      PutOther(fields[1..], key, v, k);
    }
  }

  lemma {:induction false} PutKeepsUnique(fields: seq<Field>, key: string, v: Json)
    requires UniqueKeys(fields)
    ensures UniqueKeys(Put(fields, key, v))
  {
    if |fields| > 0 && fields[0].key != key {
      PutKeepsUnique(fields[1..], key, v);
      AbsentKey(fields[1..], fields[0].key);
      PutOther(fields[1..], key, v, fields[0].key);
      UniqueCons(fields[0], Put(fields[1..], key, v));
    }
  }

  lemma UniqueCons(f: Field, rest: seq<Field>)
    requires UniqueKeys(rest) && !Has(rest, f.key)
    ensures UniqueKeys([f] + rest)
  {
    forall i | 0 <= i < |rest| ensures rest[i].key != f.key {
      HasEntry(rest, i);
    }
  }

  /** `hash.slice(*keys)`: the entries whose key is listed, in the order of `keys`. */
  function Slice(fields: seq<Field>, keys: seq<string>): (r: seq<Field>)
    ensures |r| <= |keys|
  {
    if |keys| == 0 then []
    else
      var rest := Slice(fields, keys[1..]);
      if Has(fields, keys[0]) then [Field(keys[0], At(fields, keys[0]))] + rest else rest
  }

  /** A slice holds exactly the listed keys the hash has, with their values. */
  lemma {:induction false} SliceEntry(fields: seq<Field>, keys: seq<string>, k: string)
    ensures Has(Slice(fields, keys), k) <==> k in keys && Has(fields, k)
    ensures k in keys ==> At(Slice(fields, keys), k) == At(fields, k)
  {
    if |keys| > 0 {
      SliceEntry(fields, keys[1..], k);
      assert k in keys <==> k == keys[0] || k in keys[1..];
    }
  }

  /** `hash.delete(key)`, keeping the hash; the removed value is `At(fields, key)`. */
  function Delete(fields: seq<Field>, key: string): (r: seq<Field>)
    ensures !Has(r, key)
    ensures |r| <= |fields|
  {
    if |fields| == 0 then []
    else if fields[0].key == key then Delete(fields[1..], key)
    else [fields[0]] + Delete(fields[1..], key)
  }

  /** Deleting one key leaves every other key as it was. */
  lemma {:induction false} DeleteOther(fields: seq<Field>, key: string, k: string)
    requires k != key
    ensures Has(Delete(fields, key), k) <==> Has(fields, k)
    ensures At(Delete(fields, key), k) == At(fields, k)
  {
    if |fields| > 0 {
      DeleteOther(fields[1..], key, k);
    }
  }

  /**
   * `value[key]` with a string key: a hash reads the key; a string answers
   * the key when it holds it and nil otherwise (`String#[]`); nil, booleans,
   * numbers and arrays raise, which is None.
   */
  function Index(j: Json, key: string): (r: Option<Json>)
    ensures r.Some? <==> j.JObject? || j.JStr?
    ensures j.JObject? ==> r == Some(At(j.fields, key))
  {
    match j
    case JObject(fields) => Some(At(fields, key))
    case JStr(s) => Some(if Includes(s, key) then JStr(key) else JNull)
    case _ => None
  }

  /** `hash.dig(k1, k2, ...)`: nil through nil; digging into a non-hash raises (None). */
  function Dig(j: Json, path: seq<string>): (r: Option<Json>)
    ensures path == [] ==> r == Some(j)
    decreases |path|
  {
    if |path| == 0 then Some(j)
    else match j
      case JNull => Some(JNull)
      case JObject(fields) => Dig(At(fields, path[0]), path[1..])
      case _ => None
  }
}
