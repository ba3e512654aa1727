/** JSON values as JavaScript holds them after `JSON.parse`, and the handful of object
    operations the core performs on them. An object is a list of entries in insertion
    order, the order `Object.keys`, `for ... in` and spreading follow; a key that is absent
    reads as `undefined`. */
module Json {
  import opened Common

  datatype Json =
    | JNull
    | JBool(b: bool)
    | JNumber(n: int)
    | JString(s: string)
    | JArray(items: seq<Json>)
    | JObject(entries: seq<(string, Json)>)

  /** The keys of an object's entries, in order. */
  function Keys(entries: seq<(string, Json)>): (ks: seq<string>)
    ensures |ks| == |entries| && forall i :: 0 <= i < |entries| ==> ks[i] == entries[i].0
  {
    if entries == [] then [] else Keys(DropLast(entries)) + [Last(entries).0]
  }

  /** `obj[key]`: the value of the first entry with that key, `None` for `undefined`. */
  function Lookup(entries: seq<(string, Json)>, key: string): Option<Json> {
    if entries == [] then None
    else if entries[0].0 == key then Some(entries[0].1)
    else Lookup(entries[1..], key)
  }

  /** A lookup finds nothing exactly when no entry has the key. */
  lemma {:induction false} LookupAbsent(entries: seq<(string, Json)>, key: string)
    ensures Lookup(entries, key).None? <==> forall i :: 0 <= i < |entries| ==> entries[i].0 != key
  {
    if entries != [] && entries[0].0 != key {
      LookupAbsent(entries[1..], key);
      assert forall i :: 1 <= i < |entries| ==> entries[i] == entries[1..][i - 1];
    }
  }

  /** What a lookup finds is the value of the first entry with the key. */
  lemma {:induction false} LookupFirst(entries: seq<(string, Json)>, key: string, i: nat)
    requires i < |entries| && entries[i].0 == key
    requires forall j :: 0 <= j < i ==> entries[j].0 != key
    ensures Lookup(entries, key) == Some(entries[i].1)
  {
    if i > 0 {
      LookupFirst(entries[1..], key, i - 1);
    }
  }

  /** `obj?.[key]` on any value: only an object has entries. */
  function Member(j: Json, key: string): Option<Json> {
    if j.JObject? then Lookup(j.entries, key) else None
  }

  /** A string member, `None` when it is absent or not a string. */
  function StringMember(j: Json, key: string): Option<string> {
    match Member(j, key)
    case Some(JString(s)) => Some(s)
    case _ => None
  }

  /** JavaScript truthiness of a present value (`undefined` is falsy). */
  predicate Truthy(j: Json) {
    match j
    case JNull => false
    case JBool(b) => b
    case JNumber(n) => n != 0
    case JString(s) => s != ""
    case JArray(_) => true
    case JObject(_) => true
  }

  /** A lookup in two lists of entries finds the first list's value before the second's. */
  lemma {:induction false} LookupAppend(a: seq<(string, Json)>, b: seq<(string, Json)>, key: string)
    ensures Lookup(a + b, key) == if Lookup(a, key).Some? then Lookup(a, key) else Lookup(b, key)
  {
    if a != [] {
      assert (a + b)[1..] == a[1..] + b;
      if a[0].0 != key {
        LookupAppend(a[1..], b, key);
      }
    } else {
      assert a + b == b;
    }
  }

  /** `obj[key] = value`: an existing key keeps its place and takes the value, a new key
      goes last. */
  function SetKey(entries: seq<(string, Json)>, key: string, value: Json): (r: seq<(string, Json)>)
    ensures |r| == if Lookup(entries, key).Some? then |entries| else |entries| + 1
  {
    if entries == [] then [(key, value)]
    else if entries[0].0 == key then [(key, value)] + entries[1..]
    else [entries[0]] + SetKey(entries[1..], key, value)
  }

  /** After an assignment the key reads as the value and every other key as before. */
  lemma {:induction false} LookupSetKey(entries: seq<(string, Json)>, key: string, value: Json, k: string)
    ensures Lookup(SetKey(entries, key, value), k) == if k == key then Some(value) else Lookup(entries, k)
  {
    if entries != [] && entries[0].0 != key {
      LookupSetKey(entries[1..], key, value, k);
    }
  }

  /** Assigning a new key appends an entry. */
  lemma {:induction false} SetKeyNew(entries: seq<(string, Json)>, key: string, value: Json)
    requires forall i :: 0 <= i < |entries| ==> entries[i].0 != key
    ensures SetKey(entries, key, value) == entries + [(key, value)]
  {
    if entries != [] {
      SetKeyNew(entries[1..], key, value);
      assert entries == [entries[0]] + entries[1..];
    }
  }

  /** Assigning an existing key replaces its first entry in place. */
  lemma {:induction false} SetKeyOld(entries: seq<(string, Json)>, key: string, value: Json, i: nat)
    requires i < |entries| && entries[i].0 == key
    requires forall j :: 0 <= j < i ==> entries[j].0 != key
    ensures SetKey(entries, key, value) == entries[i := (key, value)]
  {
    if i > 0 {
      SetKeyOld(entries[1..], key, value, i - 1);
      assert entries[i := (key, value)] == [entries[0]] + entries[1..][i - 1 := (key, value)];
    }
  }

  /** The index of the first entry with the key, `|entries|` when there is none. */
  function FirstKey(entries: seq<(string, Json)>, key: string): (i: nat)
    ensures i <= |entries|
    ensures i < |entries| ==> entries[i].0 == key
    ensures forall j :: 0 <= j < i ==> entries[j].0 != key
  {
    if entries == [] then 0
    else if entries[0].0 == key then 0
    else 1 + FirstKey(entries[1..], key)
  }

  /** An assignment keeps the keys in order and adds a new key at the end. */
  lemma KeysSetKey(entries: seq<(string, Json)>, key: string, value: Json)
    ensures Keys(SetKey(entries, key, value)) == if key in Keys(entries) then Keys(entries) else Keys(entries) + [key]
  {
    var i := FirstKey(entries, key);
    if i < |entries| {
      SetKeyOld(entries, key, value, i);
      var r := entries[i := (key, value)];
      assert Keys(r) == Keys(entries);
    } else {
      SetKeyNew(entries, key, value);
      assert DropLast(entries + [(key, value)]) == entries;
    }
  }

  /** `delete obj[key]`. */
  function DeleteKey(entries: seq<(string, Json)>, key: string): (r: seq<(string, Json)>)
    ensures |r| <= |entries|
  {
    if entries == [] then []
    else DeleteKey(DropLast(entries), key) + (if Last(entries).0 == key then [] else [Last(entries)])
  }

  lemma {:induction false} LookupDeleteKey(entries: seq<(string, Json)>, key: string, k: string)
    ensures Lookup(DeleteKey(entries, key), k) == if k == key then None else Lookup(entries, k)
  {
    if entries != [] {
      var p, l := DropLast(entries), Last(entries);
      LookupDeleteKey(p, key, k);
      LookupAppend(DeleteKey(p, key), if l.0 == key then [] else [l], k);
      assert entries == p + [l];
      LookupAppend(p, [l], k);
    }
  }

  /** An entry survives the deletion exactly when its key is another one. */
  lemma {:induction false} DeleteKeyMem(entries: seq<(string, Json)>, key: string, e: (string, Json))
    ensures e in DeleteKey(entries, key) <==> e in entries && e.0 != key
  {
    if entries != [] {
      DeleteKeyMem(DropLast(entries), key, e);
      assert entries == DropLast(entries) + [Last(entries)];
    }
  }

  /** `{ ...a, ...b }`: the entries of `b` assigned one by one onto a copy of `a`. */
  function Spread(a: seq<(string, Json)>, b: seq<(string, Json)>): seq<(string, Json)>
    decreases |b|
  {
    if b == [] then a else Spread(SetKey(a, b[0].0, b[0].1), b[1..])
  }

  /** A spread reads a key from `b` when `b` has it and from `a` otherwise, for a `b` whose
      keys are distinct, as the keys of a JavaScript object are. */
  lemma {:induction false} LookupSpread(a: seq<(string, Json)>, b: seq<(string, Json)>, k: string)
    requires Distinct(Keys(b))
    ensures Lookup(Spread(a, b), k) == if Lookup(b, k).Some? then Lookup(b, k) else Lookup(a, k)
    decreases |b|
  {
    if b != [] {
      var t := b[1..];
      assert Keys(b) == [b[0].0] + Keys(t);
      assert Distinct(Keys(t)) by {
        forall i, j | 0 <= i < j < |t| ensures Keys(t)[i] != Keys(t)[j] {
          assert Keys(b)[i + 1] == Keys(t)[i] && Keys(b)[j + 1] == Keys(t)[j];
        }
      }
      LookupSpread(SetKey(a, b[0].0, b[0].1), t, k);
      LookupSetKey(a, b[0].0, b[0].1, k);
      if k == b[0].0 {
        LookupAbsent(t, k);
        forall i | 0 <= i < |t| ensures t[i].0 != k {
          assert Keys(b)[0] == k && Keys(b)[i + 1] == t[i].0;
        }
      }
    }
  }
}
