/**
  JSON values as the json-c library holds them while an event is being built.
  Objects keep their members in insertion order, which is also the order in
  which json-c prints them.
 */
module Json {
  import opened Wrappers

  datatype Json =
    | JNull
    | JBool(b: bool)
    | JInt(i: int)
    | JDouble(d: real)
    | JString(s: string)
    | JArray(items: seq<Json>)
    | JObject(members: seq<Member>)

  /** One key/value pair of an object. */
  type Member = (string, Json)

  predicate HasKey(ms: seq<Member>, key: string)
  {
    ms != [] && (ms[0].0 == key || HasKey(ms[1..], key))
  }

  /** A key carried by no member is absent. */
  lemma NotHasKey(ms: seq<Member>, key: string)
    requires forall i :: 0 <= i < |ms| ==> ms[i].0 != key
    ensures !HasKey(ms, key)
  {
  }

  /** The value stored under `key`, if any: the first member carrying it. */
  function Lookup(ms: seq<Member>, key: string): Option<Json>
  {
    if ms == [] then None
    else if ms[0].0 == key then Some(ms[0].1)
    else Lookup(ms[1..], key)
  }

  /** Lookup finds the first member carrying the key. */
  lemma {:induction false} LookupAt(ms: seq<Member>, i: nat)
    requires i < |ms|
    requires forall j :: 0 <= j < i ==> ms[j].0 != ms[i].0
    ensures Lookup(ms, ms[i].0) == Some(ms[i].1)
  {
    if i > 0 {
      assert ms[1..][i - 1] == ms[i];
      LookupAt(ms[1..], i - 1);
    }
  }

  /** The keys of an object, in insertion order. */
  function Keys(ms: seq<Member>): (ks: seq<string>)
    ensures |ks| == |ms|
    ensures forall i :: 0 <= i < |ms| ==> ks[i] == ms[i].0
  {
    if ms == [] then []
    else
      var rest := Keys(ms[1..]);
      assert forall i :: 1 <= i < |ms| ==> ms[i] == ms[1..][i - 1];
      [ms[0].0] + rest
  }

  /**
    json_object_object_add: a key that is already present keeps its place and
    gets the new value; a new key is appended at the end.
   */
  function Put(ms: seq<Member>, key: string, value: Json): seq<Member>
  {
    if ms == [] then [(key, value)]
    else if ms[0].0 == key then [(key, value)] + ms[1..]
    else
      assert ms == [ms[0]] + ms[1..];
      [ms[0]] + Put(ms[1..], key, value)
  }

  /** Putting a key that is already present changes no key and no position. */
  lemma {:induction false} PutExisting(ms: seq<Member>, key: string, value: Json)
    requires HasKey(ms, key)
    ensures Keys(Put(ms, key, value)) == Keys(ms)
  {
    if ms[0].0 != key {
      PutExisting(ms[1..], key, value);
      assert Keys(Put(ms, key, value)) == [ms[0].0] + Keys(Put(ms[1..], key, value));
      assert Keys(ms) == [ms[0].0] + Keys(ms[1..]);
    }
  }

  /** Putting a key no member carries appends it. */
  lemma {:induction false} PutFresh(ms: seq<Member>, key: string, value: Json)
    requires forall i :: 0 <= i < |ms| ==> ms[i].0 != key
    ensures Put(ms, key, value) == ms + [(key, value)]
  {
    if ms != [] {
      assert forall i :: 0 <= i < |ms[1..]| ==> ms[1..][i] == ms[i + 1];
      PutFresh(ms[1..], key, value);
      assert [ms[0]] + (ms[1..] + [(key, value)]) == ms + [(key, value)];
    }
  }

  /** After a Put, the key holds the new value and every other key keeps its value. */
  lemma {:induction false} PutLookup(ms: seq<Member>, key: string, value: Json, other: string)
    ensures Lookup(Put(ms, key, value), key) == Some(value)
    ensures other != key ==> Lookup(Put(ms, key, value), other) == Lookup(ms, other)
  {
    if ms != [] && ms[0].0 != key {
      PutLookup(ms[1..], key, value, other);
    }
  }

  /** The `type` discriminator of an event document ("" when it has none). */
  function KindOf(j: Json): string
  {
    match j
    case JObject(ms) =>
      (match Lookup(ms, "type")
       case Some(JString(s)) => s
       case _ => "")
    case _ => ""
  }
}
