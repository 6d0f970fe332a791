/** The hosted Redis key space the store-backed code talks to, reduced to the commands it
    issues: HSET, HGETALL, SADD, SREM, SMEMBERS, SCARD, DEL, RPUSH, LRANGE, LLEN, SET, GET,
    INCR and EXPIRE. One key holds one kind of value; DEL removes the key whatever it holds. */
module KeyValue {
  import opened Wrappers
  import opened Text

  /** A JSON-like value, as the Redis client serialises hash fields and string values. */
  datatype Value =
    | Str(s: string)
    | Int(i: int)
    | Bool(b: bool)
    | Null
    | List(items: seq<Value>)
    | Record(fields: map<string, Value>)

  type Hash = map<string, Value>

  /** JavaScript truthiness of a value read back from the store. */
  predicate Truthy(v: Value) {
    match v
    case Str(s) => s != ""
    case Int(i) => i != 0
    case Bool(b) => b
    case Null => false
    case List(_) => true
    case Record(_) => true
  }

  /** `String(v)`, as a template literal renders a value; an array renders its elements
      joined by commas, with `null` ones empty. */
  function ToJsString(v: Value): string
  {
    match v
    case Str(s) => s
    case Int(i) => IntToString(i)
    case Bool(b) => if b then "true" else "false"
    case Null => "null"
    case List(items) =>
      Join(seq(|items|, k requires 0 <= k < |items| => if items[k].Null? then "" else ToJsString(items[k])), ",")
    case Record(_) => "[object Object]"
  }

  /** A field as a template literal renders it; a missing one reads `undefined`. */
  function FieldText(h: Hash, field: string): string {
    if field in h then ToJsString(h[field]) else "undefined"
  }

  /** The fields of the hash at `key`, empty when there is none. */
  function FieldsAt(hashes: map<string, Hash>, key: string): Hash {
    if key in hashes then hashes[key] else map[]
  }

  /** The hashes after HSET of `fields` at `key`: the new fields are merged over the old. */
  function HSetOn(hashes: map<string, Hash>, key: string, fields: Hash): map<string, Hash> {
    hashes[key := FieldsAt(hashes, key) + fields]
  }

  /** The members of the set at `key`, empty when there is none. */
  function MembersAt(sets: map<string, set<string>>, key: string): set<string> {
    if key in sets then sets[key] else {}
  }

  /** The sets after SADD of `member` to `key`. */
  function SAdded(sets: map<string, set<string>>, key: string, member: string): map<string, set<string>> {
    sets[key := MembersAt(sets, key) + {member}]
  }

  /** The sets after SREM of `member` from `key`. */
  function SRemoved(sets: map<string, set<string>>, key: string, member: string): map<string, set<string>> {
    if key in sets then sets[key := sets[key] - {member}] else sets
  }

  /** The elements of a sequence of ids. */
  function ToSet(ids: seq<string>): set<string> { set x | x in ids }

  /** `a` is `b` with some keys removed and nothing else changed. */
  ghost predicate SubMap<V>(a: map<string, V>, b: map<string, V>) {
    forall k :: k in a ==> k in b && a[k] == b[k]
  }

  /** The whole key space at one moment. */
  datatype Snapshot = Snapshot(
    hashes: map<string, Hash>,
    sets: map<string, set<string>>,
    lists: map<string, seq<string>>,
    strings: map<string, Value>,
    expiries: map<string, int>)

  /** `after` is `before` with only keys from `keys` deleted and only members from `members`
      removed from the sets that remain; nothing is added or overwritten. */
  ghost predicate Pruned(after: Snapshot, before: Snapshot, keys: set<string>, members: set<string>) {
    && SubMap(after.hashes, before.hashes) && before.hashes.Keys - after.hashes.Keys <= keys
    && SubMap(after.lists, before.lists) && before.lists.Keys - after.lists.Keys <= keys
    && SubMap(after.strings, before.strings) && before.strings.Keys - after.strings.Keys <= keys
    && SubMap(after.expiries, before.expiries) && before.expiries.Keys - after.expiries.Keys <= keys
    && before.sets.Keys - after.sets.Keys <= keys
    && (forall k :: k in after.sets ==> k in before.sets && after.sets[k] <= before.sets[k])
    && (forall k :: k in after.sets && k in before.sets ==> before.sets[k] - after.sets[k] <= members)
  }

  lemma PrunedRefl(s: Snapshot)
    ensures Pruned(s, s, {}, {})
  {
  }

  lemma PrunedWeaken(a: Snapshot, b: Snapshot, k1: set<string>, m1: set<string>,
                     k2: set<string>, m2: set<string>)
    requires Pruned(a, b, k1, m1) && k1 <= k2 && m1 <= m2
    ensures Pruned(a, b, k2, m2)
  {
  }

  /** Two prunings in a row are one pruning, within the union of what each may remove. */
  lemma PrunedTrans(a: Snapshot, b: Snapshot, c: Snapshot, k1: set<string>, m1: set<string>,
                    k2: set<string>, m2: set<string>)
    requires Pruned(a, b, k1, m1) && Pruned(b, c, k2, m2)
    ensures Pruned(a, c, k1 + k2, m1 + m2)
  {
  }

  /** A hash that is absent or empty stays so under pruning. */
  lemma PrunedKeepsGone(a: Snapshot, b: Snapshot, keys: set<string>, members: set<string>, k: string)
    requires Pruned(a, b, keys, members) && FieldsAt(b.hashes, k) == map[]
    ensures FieldsAt(a.hashes, k) == map[]
  {
  }

  /** A hash whose key may not be removed survives pruning unchanged. */
  lemma PrunedKeepsHash(a: Snapshot, b: Snapshot, keys: set<string>, members: set<string>, k: string)
    requires Pruned(a, b, keys, members) && k !in keys
    ensures FieldsAt(a.hashes, k) == FieldsAt(b.hashes, k)
  {
    if k in b.hashes {
      assert k !in b.hashes.Keys - a.hashes.Keys;
    }
  }

  class Store {
    var hashes: map<string, Hash>
    var sets: map<string, set<string>>
    var lists: map<string, seq<string>>
    var strings: map<string, Value>
    /** Seconds-to-live set by EXPIRE; expiry itself (a clock) is not modelled. */
    var expiries: map<string, int>

    constructor ()
      ensures hashes == map[] && sets == map[] && lists == map[]
      ensures strings == map[] && expiries == map[]
    {
      hashes, sets, lists, strings, expiries := map[], map[], map[], map[], map[];
    }

    /** The fields of the hash at `key`, empty when there is none. */
    function Fields(key: string): Hash
      reads this
    {
      FieldsAt(hashes, key)
    }

    /** The whole key space, for stating what a sequence of commands changed. */
    function Snap(): Snapshot
      reads this
    {
      Snapshot(hashes, sets, lists, strings, expiries)
    }

    /** HGETALL: the client answers `null` for a key that holds no hash. */
    function HGetAll(key: string): (r: Option<Hash>)
      reads this
      ensures r.None? <==> Fields(key) == map[]
      ensures r.Some? ==> r.value == hashes[key]
    {
      if key in hashes && hashes[key] != map[] then Some(hashes[key]) else None
    }

    /** SMEMBERS: an absent key reads as the empty set. */
    function Members(key: string): set<string>
      reads this
    {
      MembersAt(sets, key)
    }

    /** SMEMBERS as the client returns it: every member exactly once, in an order the server
        chooses. */
    method SMembers(key: string) returns (ids: seq<string>)
      ensures ToSet(ids) == Members(key)
      ensures forall i, j :: 0 <= i < j < |ids| ==> ids[i] != ids[j]
      ensures |ids| == |Members(key)|
    {
      var rest := Members(key);
      ids := [];
      while rest != {}
        invariant rest <= Members(key)
        invariant forall x :: x in ids ==> x in Members(key) && x !in rest
        invariant forall x :: x in Members(key) ==> x in ids || x in rest
        invariant forall i, j :: 0 <= i < j < |ids| ==> ids[i] != ids[j]
        invariant |ids| + |rest| == |Members(key)|
      {
        var x :| x in rest;
        ids := ids + [x];
        assert |rest - {x}| == |rest| - 1 by {
          assert rest == (rest - {x}) + {x};
        }
        rest := rest - {x};
      }
    }

    /** LRANGE key 0 -1: an absent key reads as the empty list. */
    function Range(key: string): seq<string>
      reads this
    {
      if key in lists then lists[key] else []
    }

    /** HSET merges the given fields over the ones already stored. */
    method HSet(key: string, fields: Hash)
      modifies this
      ensures hashes == HSetOn(old(hashes), key, fields)
      ensures sets == old(sets) && lists == old(lists)
      ensures strings == old(strings) && expiries == old(expiries)
    {
      hashes := HSetOn(hashes, key, fields);
    }

    method SAdd(key: string, member: string)
      modifies this
      ensures sets == SAdded(old(sets), key, member)
      ensures hashes == old(hashes) && lists == old(lists)
      ensures strings == old(strings) && expiries == old(expiries)
    {
      sets := SAdded(sets, key, member);
    }

    /** SREM; removing from an absent set leaves the key space as it was. */
    method SRem(key: string, member: string)
      modifies this
      ensures sets == SRemoved(old(sets), key, member)
      ensures hashes == old(hashes) && lists == old(lists)
      ensures strings == old(strings) && expiries == old(expiries)
      ensures Pruned(Snap(), old(Snap()), {}, {member})
    {
      if key in sets {
        sets := sets[key := sets[key] - {member}];
      }
    }

    /** DEL removes the key from the key space, whatever kind of value it holds. */
    method Del(key: string)
      modifies this
      ensures hashes == old(hashes) - {key} && sets == old(sets) - {key}
      ensures lists == old(lists) - {key} && strings == old(strings) - {key}
      ensures expiries == old(expiries) - {key}
      ensures Pruned(Snap(), old(Snap()), {key}, {})
    {
      hashes, sets, lists := hashes - {key}, sets - {key}, lists - {key};
      strings, expiries := strings - {key}, expiries - {key};
    }

    method RPush(key: string, item: string)
      modifies this
      ensures lists == old(lists)[key := old(Range(key)) + [item]]
      ensures hashes == old(hashes) && sets == old(sets)
      ensures strings == old(strings) && expiries == old(expiries)
    {
      lists := lists[key := Range(key) + [item]];
    }

    method Set(key: string, v: Value)
      modifies this
      ensures strings == old(strings)[key := v]
      ensures hashes == old(hashes) && sets == old(sets) && lists == old(lists)
      ensures expiries == old(expiries) - {key}
    {
      strings := strings[key := v];
      expiries := expiries - {key};
    }

    /** INCR: an absent key counts from 0; a value that is not an integer is an error. */
    method Incr(key: string) returns (r: Result<int>)
      modifies this
      ensures key !in old(strings) ==> r == Ok(1)
      ensures key in old(strings) && old(strings[key]).Int? ==> r == Ok(old(strings[key]).i + 1)
      ensures key in old(strings) && !old(strings[key]).Int? ==> r.Err?
      ensures strings == if r.Ok? then old(strings)[key := Int(r.value)] else old(strings)
      ensures hashes == old(hashes) && sets == old(sets) && lists == old(lists)
      ensures expiries == old(expiries)
    {
      if key !in strings {
        r := Ok(1);
      } else if strings[key].Int? {
        r := Ok(strings[key].i + 1);
      } else {
        r := Err("ERR value is not an integer or out of range");
        return;
      }
      strings := strings[key := Int(r.value)];
    }

    /** EXPIRE on a string key; on an absent key it does nothing. */
    method Expire(key: string, seconds: int)
      modifies this
      ensures expiries == if key in old(strings) then old(expiries)[key := seconds] else old(expiries)
      ensures hashes == old(hashes) && sets == old(sets) && lists == old(lists)
      ensures strings == old(strings)
    {
      if key in strings {
        expiries := expiries[key := seconds];
      }
    }
  }
}
