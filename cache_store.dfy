/**
 * The Redis store the cache services drive, as one mutable object: hashes,
 * lists, sorted sets and the follower collections, plus whether the store
 * can be reached at all.  Each method is one Redis command.
 */
module CacheStore {
  import opened Wrappers
  import SortedSet

  /** A Redis hash: field -> value. */
  type Hash = map<string, string>

  /** HGETALL: the hash under `key`; a missing key reads as the empty object. */
  function HashAt(hs: map<string, Hash>, key: string): Hash {
    if key in hs then hs[key] else map[]
  }

  /** One field of an HMGET reply: `None` (null) for a missing key or field. */
  function HGet(hs: map<string, Hash>, key: string, field: string): Option<string> {
    var h := HashAt(hs, key);
    if field in h then Some(h[field]) else None
  }

  /** A hash field as a JavaScript property: `None` (undefined) when missing. */
  function FieldVal(h: Hash, f: string): Val {
    if f in h then Some(h[f]) else None
  }

  /** LRANGE key 0 -1: the whole list; a missing key reads as the empty list. */
  function ListAt(ls: map<string, seq<string>>, key: string): seq<string> {
    if key in ls then ls[key] else []
  }

  function SortedAt(zs: map<string, seq<SortedSet.Entry>>, key: string): seq<SortedSet.Entry> {
    if key in zs then zs[key] else []
  }

  function CollectionAt(cs: map<string, set<string>>, key: string): set<string> {
    if key in cs then cs[key] else {}
  }

  /** LREM key 1 v: the list without the first element equal to `v`. */
  function RemoveFirst(s: seq<string>, v: string): (r: seq<string>)
    ensures v in s ==> |r| == |s| - 1
    ensures v !in s ==> r == s
  {
    if s == [] then []
    else if s[0] == v then s[1..]
    else [s[0]] + RemoveFirst(s[1..], v)
  }

  /** Every sorted set in the store is in Redis order with each member once. */
  ghost predicate SortedSetsValid(zs: map<string, seq<SortedSet.Entry>>) {
    forall k :: k in zs ==> SortedSet.Valid(zs[k])
  }

  class Store {
    var hashes: map<string, Hash>
    var lists: map<string, seq<string>>
    var sorted: map<string, seq<SortedSet.Entry>>
    /** `following:<id>` and `followers:<id>`, as sets of user ids. */
    var collections: map<string, set<string>>
    /** False when the store cannot be reached: every command then fails. */
    var up: bool

    ghost predicate Valid()
      reads this
    {
      SortedSetsValid(sorted)
    }

    constructor (up: bool)
      ensures this.up == up
      ensures hashes == map[] && lists == map[] && sorted == map[] && collections == map[]
      ensures Valid()
    {
      hashes := map[];
      lists := map[];
      sorted := map[];
      collections := map[];
      this.up := up;
    }

    /** HSET key field value. */
    method HSet(key: string, field: string, value: string)
      modifies this
      ensures hashes == old(hashes)[key := HashAt(old(hashes), key)[field := value]]
      ensures lists == old(lists) && sorted == old(sorted) && collections == old(collections)
      ensures up == old(up)
    {
      hashes := hashes[key := HashAt(hashes, key)[field := value]];
    }

    /** DEL key. */
    method Del(key: string)
      modifies this
      ensures hashes == old(hashes) - {key} && lists == old(lists) - {key}
      ensures sorted == old(sorted) - {key} && collections == old(collections) - {key}
      ensures up == old(up)
    {
      hashes := hashes - {key};
      lists := lists - {key};
      sorted := sorted - {key};
      collections := collections - {key};
    }

    /** LPUSH key v: `v` becomes the head of the list. */
    method LPush(key: string, v: string)
      modifies this
      ensures lists == old(lists)[key := [v] + ListAt(old(lists), key)]
      ensures hashes == old(hashes) && sorted == old(sorted) && collections == old(collections)
      ensures up == old(up)
    {
      lists := lists[key := [v] + ListAt(lists, key)];
    }

    /** LREM key 1 v. */
    method LRem(key: string, v: string)
      modifies this
      ensures lists == old(lists)[key := RemoveFirst(ListAt(old(lists), key), v)]
      ensures hashes == old(hashes) && sorted == old(sorted) && collections == old(collections)
      ensures up == old(up)
    {
      lists := lists[key := RemoveFirst(ListAt(lists, key), v)];
    }

    /** ZADD key score member. */
    method ZAdd(key: string, member: string, score: int)
      requires Valid()
      modifies this
      ensures sorted == old(sorted)[key := SortedSet.Add(SortedAt(old(sorted), key), member, score)]
      ensures hashes == old(hashes) && lists == old(lists) && collections == old(collections)
      ensures up == old(up)
      ensures Valid()
    {
      var z := SortedAt(sorted, key);
      SortedSet.AddValid(z, member, score);
      sorted := sorted[key := SortedSet.Add(z, member, score)];
    }

    /** ZREM key member. */
    method ZRem(key: string, member: string)
      requires Valid()
      modifies this
      ensures sorted == old(sorted)[key := SortedSet.Remove(SortedAt(old(sorted), key), member)]
      ensures hashes == old(hashes) && lists == old(lists) && collections == old(collections)
      ensures up == old(up)
      ensures Valid()
    {
      var z := SortedAt(sorted, key);
      SortedSet.RemoveValid(z, member);
      sorted := sorted[key := SortedSet.Remove(z, member)];
    }

    /** Adds `v` to a follower collection. */
    method CollectionAdd(key: string, v: string)
      modifies this
      ensures collections == old(collections)[key := CollectionAt(old(collections), key) + {v}]
      ensures hashes == old(hashes) && lists == old(lists) && sorted == old(sorted)
      ensures up == old(up)
    {
      collections := collections[key := CollectionAt(collections, key) + {v}];
    }

    /** Removes `v` from a follower collection. */
    method CollectionRemove(key: string, v: string)
      modifies this
      ensures collections == old(collections)[key := CollectionAt(old(collections), key) - {v}]
      ensures hashes == old(hashes) && lists == old(lists) && sorted == old(sorted)
      ensures up == old(up)
    {
      collections := collections[key := CollectionAt(collections, key) - {v}];
    }
  }

  /** LREM with count 1 removes exactly the first occurrence and keeps the rest in order. */
  lemma {:induction false} RemoveFirstSplit(s: seq<string>, v: string, i: nat)
    requires i < |s| && s[i] == v && v !in s[..i]
    ensures RemoveFirst(s, v) == s[..i] + s[i + 1..]
    decreases i
  {
    if i > 0 {
      assert s[0] in s[..i];
      assert s[1..][..i - 1] == s[1..i];
      assert s[1..i] == s[..i][1..];
      RemoveFirstSplit(s[1..], v, i - 1);
      assert s[..i] == [s[0]] + s[1..i];
      assert s[1..][i..] == s[i + 1..];
    }
  }
}
