/**
 * JSON values as the browser holds them after `JSON.parse`. An object keeps
 * its properties in order, as JavaScript enumerates them.
 */
module JsonValue {

  import opened Wrappers

  datatype Json =
    | JNull
    | JBool(b: bool)
    | JNumber(n: int)
    | JString(s: string)
    | JArray(items: seq<Json>)
    | JObject(entries: seq<Entry>)

  datatype Entry = Entry(key: string, value: Json)

  /** The empty object `{}`. */
  const EmptyObject: Json := JObject([])

  /** JavaScript truthiness: `null`, `false`, `0` and `""` are falsy; arrays and objects never are. */
  predicate Truthy(v: Json): (b: bool)
    ensures !b <==> v in {JNull, JBool(false), JNumber(0), JString("")}
  {
    match v
    case JNull => false
    case JBool(b) => b
    case JNumber(n) => n != 0
    case JString(s) => s != ""
    case JArray(_) => true
    case JObject(_) => true
  }

  /** The property names of an object, in order (`Object.keys`). */
  function Keys(entries: seq<Entry>): (ks: seq<string>)
    ensures |ks| == |entries|
    ensures forall i :: 0 <= i < |entries| ==> ks[i] == entries[i].key
  {
    if entries == [] then [] else [entries[0].key] + Keys(entries[1..])
  }

  /** `obj[key]`: the value of the first property named `key`, if any. */
  function Lookup(entries: seq<Entry>, key: string): (r: Option<Json>)
    ensures r.None? <==> key !in Keys(entries)
    ensures r.Some? ==> Entry(key, r.value) in entries
  {
    if entries == [] then None
    else if entries[0].key == key then Some(entries[0].value)
    else Lookup(entries[1..], key)
  }

  /** Property access on any value: only an object has named properties here. */
  function Get(v: Json, key: string): (r: Option<Json>)
    ensures !v.JObject? ==> r.None?
    ensures v.JObject? ==> (r.Some? <==> key in Keys(v.entries))
    ensures r.Some? ==> Entry(key, r.value) in v.entries
  {
    if v.JObject? then Lookup(v.entries, key) else None
  }

  /**
   * `{...obj, [key]: value}`: an existing property keeps its place and takes
   * the new value, a new one is added last.
   */
  function Upsert(entries: seq<Entry>, key: string, value: Json): (r: seq<Entry>)
    ensures |r| == if key in Keys(entries) then |entries| else |entries| + 1
    ensures forall i :: 0 <= i < |entries| ==> r[i].key == entries[i].key
    ensures forall i :: 0 <= i < |entries| && entries[i].key != key ==> r[i] == entries[i]
    ensures Entry(key, value) in r
  {
    if key in Keys(entries) then SetExisting(entries, key, value)
    else entries + [Entry(key, value)]
  }

  function SetExisting(entries: seq<Entry>, key: string, value: Json): (r: seq<Entry>)
    ensures |r| == |entries|
    ensures forall i :: 0 <= i < |r| ==>
      r[i] == if entries[i].key == key then Entry(key, value) else entries[i]
  {
    if entries == [] then []
    else if entries[0].key == key then [Entry(key, value)] + SetExisting(entries[1..], key, value)
    else [entries[0]] + SetExisting(entries[1..], key, value)
  }

  lemma SetExistingKeys(entries: seq<Entry>, key: string, value: Json)
    ensures Keys(SetExisting(entries, key, value)) == Keys(entries)
  {
  }

  lemma {:induction false} SetExistingLookup(entries: seq<Entry>, key: string, value: Json, k: string)
    ensures Lookup(SetExisting(entries, key, value), k)
         == if k == key && key in Keys(entries) then Some(value) else Lookup(entries, k)
  {
    if entries != [] {
      SetExistingLookup(entries[1..], key, value, k);
      assert Keys(entries) == [entries[0].key] + Keys(entries[1..]);
    }
  }

  lemma {:induction false} LookupAppend(entries: seq<Entry>, e: Entry, k: string)
    ensures Lookup(entries + [e], k)
         == if k in Keys(entries) then Lookup(entries, k) else if k == e.key then Some(e.value) else None
  {
    if entries == [] {
      assert [] + [e] == [e];
    } else {
      assert (entries + [e])[1..] == entries[1..] + [e];
      LookupAppend(entries[1..], e, k);
    }
  }

  lemma KeysAppend(entries: seq<Entry>, e: Entry)
    ensures Keys(entries + [e]) == Keys(entries) + [e.key]
  {
  }

  /**
   * The spread update replaces exactly one property: `key` now reads `value`,
   * every other name reads what it read before, and the property names keep
   * their order (a new name goes last).
   */
  lemma UpsertSpec(entries: seq<Entry>, key: string, value: Json)
    ensures Lookup(Upsert(entries, key, value), key) == Some(value)
    ensures forall k :: k != key ==> Lookup(Upsert(entries, key, value), k) == Lookup(entries, k)
    ensures Keys(Upsert(entries, key, value))
         == if key in Keys(entries) then Keys(entries) else Keys(entries) + [key]
  {
    if key in Keys(entries) {
      SetExistingKeys(entries, key, value);
      SetExistingLookup(entries, key, value, key);
      forall k | k != key
        ensures Lookup(Upsert(entries, key, value), k) == Lookup(entries, k)
      {
        SetExistingLookup(entries, key, value, k);
      }
    } else {
      LookupAppend(entries, Entry(key, value), key);
      forall k | k != key
        ensures Lookup(Upsert(entries, key, value), k) == Lookup(entries, k)
      {
        LookupAppend(entries, Entry(key, value), k);
      }
      KeysAppend(entries, Entry(key, value));
    }
  }

  /** Writing the same property twice with the same value is the same as writing it once. */
  lemma UpsertIdempotent(entries: seq<Entry>, key: string, value: Json)
    ensures Upsert(Upsert(entries, key, value), key, value) == Upsert(entries, key, value)
  {
    UpsertSpec(entries, key, value);
    var once := Upsert(entries, key, value);
    if key !in Keys(entries) {
      assert once == entries + [Entry(key, value)];
      forall i | 0 <= i < |entries| ensures entries[i].key != key {
        assert Keys(entries)[i] == entries[i].key;
      }
    }
    SetExistingFixed(once, key, value);
  }

  lemma SetExistingFixed(entries: seq<Entry>, key: string, value: Json)
    requires forall i :: 0 <= i < |entries| && entries[i].key == key ==> entries[i].value == value
    ensures SetExisting(entries, key, value) == entries
  {
  }
}
