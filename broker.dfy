/**
 * The Redis server, reduced to the list commands the queues use: RPUSH, BLPOP
 * (several keys, first non-empty key in the order given), DEL and PING. Its key
 * space maps a key to a list of strings; a missing key reads as the empty list
 * and Redis never stores an empty list.
 */
module Broker {
  import opened Wrappers

  type Store = map<string, seq<string>>

  /** The list stored under `key`; a missing key is an empty list. */
  function Lookup(m: Store, key: string): seq<string> {
    if key in m then m[key] else []
  }

  /** Redis deletes a key when its list becomes empty. */
  ghost predicate Canonical(m: Store) {
    forall k :: k in m ==> m[k] != []
  }

  /** RPUSH: `v` goes on the tail of `key`'s list; no other list changes. */
  function Pushed(m: Store, key: string, v: string): (r: Store)
    ensures Lookup(r, key) == Lookup(m, key) + [v]
    ensures forall k :: k != key ==> Lookup(r, k) == Lookup(m, k)
    ensures Canonical(m) ==> Canonical(r)
  {
    m[key := Lookup(m, key) + [v]]
  }

  /** LPOP of a non-empty list: its head goes; no other list changes. */
  function Popped(m: Store, key: string): (r: Store)
    requires Lookup(m, key) != []
    ensures Lookup(r, key) == Lookup(m, key)[1..]
    ensures forall k :: k != key ==> Lookup(r, k) == Lookup(m, k)
    ensures Canonical(m) ==> Canonical(r)
  {
    if |m[key]| == 1 then m - {key} else m[key := m[key][1..]]
  }

  /** DEL of every key in `keys`: those lists are empty, the others unchanged. */
  function Deleted(m: Store, keys: seq<string>): (r: Store)
    ensures forall k :: Lookup(r, k) == if k in keys then [] else Lookup(m, k)
    ensures Canonical(m) ==> Canonical(r)
  {
    map k | k in m && k !in keys :: m[k]
  }

  /** Two canonical stores with the same lists are the same store. */
  lemma CanonicalExtensionality(m1: Store, m2: Store)
    requires Canonical(m1) && Canonical(m2)
    requires forall k :: Lookup(m1, k) == Lookup(m2, k)
    ensures m1 == m2
  {
    forall k | k in m1 ensures k in m2 && m1[k] == m2[k] {
      assert Lookup(m1, k) == Lookup(m2, k);
    }
    forall k | k in m2 ensures k in m1 {
      assert Lookup(m1, k) == Lookup(m2, k);
    }
  }

  /** The position of the first key in `keys` whose list is non-empty, if any. */
  function FirstNonEmpty(m: Store, keys: seq<string>): (r: Option<nat>)
    ensures r.Some? ==> r.value < |keys| && Lookup(m, keys[r.value]) != []
    ensures r.Some? ==> forall i :: 0 <= i < r.value ==> Lookup(m, keys[i]) == []
    ensures r.None? <==> forall i :: 0 <= i < |keys| ==> Lookup(m, keys[i]) == []
  {
    if |keys| == 0 then None
    else if Lookup(m, keys[0]) != [] then Some(0)
    else
      match FirstNonEmpty(m, keys[1..])
      case None => None
      case Some(j) => Some(j + 1)
  }

  /**
   * BLPOP on `keys` when something is there: the head of the first non-empty
   * list, with the name of its key, and the store without that head. When every
   * list is empty nothing is popped (the blocking wait ends in a timeout).
   */
  function PopFirst(m: Store, keys: seq<string>): (r: (Option<(string, string)>, Store))
    ensures r.0.None? <==> forall i :: 0 <= i < |keys| ==> Lookup(m, keys[i]) == []
    ensures r.0.None? ==> r.1 == m
    ensures r.0.Some? ==>
      && r.0.value.0 in keys
      && Lookup(m, r.0.value.0) != []
      && r.0.value.1 == Lookup(m, r.0.value.0)[0]
      && r.1 == Popped(m, r.0.value.0)
    ensures r.0.Some? ==> exists j ::
      && 0 <= j < |keys| && keys[j] == r.0.value.0
      && forall i :: 0 <= i < j ==> Lookup(m, keys[i]) == []
  {
    match FirstNonEmpty(m, keys)
    case None => (None, m)
    case Some(j) => (Some((keys[j], Lookup(m, keys[j])[0])), Popped(m, keys[j]))
  }

  /** When exactly one watched list is non-empty, BLPOP takes the head of that one. */
  lemma PopFirstOnlyCandidate(m: Store, keys: seq<string>, key: string)
    requires key in keys && Lookup(m, key) != []
    requires forall i :: 0 <= i < |keys| && keys[i] != key ==> Lookup(m, keys[i]) == []
    ensures PopFirst(m, keys) == (Some((key, Lookup(m, key)[0])), Popped(m, key))
  {
    var j := FirstNonEmpty(m, keys);
    var i :| 0 <= i < |keys| && keys[i] == key;
    assert j.Some?;
  }

  /** Lists are FIFO: pushing onto an empty list and popping it restores the store. */
  lemma PushThenPop(m: Store, key: string, v: string)
    requires Canonical(m) && Lookup(m, key) == []
    ensures Lookup(Pushed(m, key, v), key) == [v]
    ensures Popped(Pushed(m, key, v), key) == m
  {
    var r := Popped(Pushed(m, key, v), key);
    CanonicalExtensionality(r, m);
  }

  /**
   * Lists are FIFO: a push does not change what the next pop returns from a
   * non-empty list, and pushing then popping equals popping then pushing.
   */
  lemma PushKeepsHead(m: Store, key: string, v: string)
    requires Canonical(m) && Lookup(m, key) != []
    ensures Lookup(Pushed(m, key, v), key)[0] == Lookup(m, key)[0]
    ensures Popped(Pushed(m, key, v), key) == Pushed(Popped(m, key), key, v)
  {
    var left := Popped(Pushed(m, key, v), key);
    var right := Pushed(Popped(m, key), key, v);
    assert Lookup(left, key) == Lookup(m, key)[1..] + [v];
    CanonicalExtensionality(left, right);
  }

  /** Pushing a sequence of values one after another appends them in order. */
  function PushAll(m: Store, key: string, vs: seq<string>): Store
    decreases |vs|
  {
    if vs == [] then m else PushAll(Pushed(m, key, vs[0]), key, vs[1..])
  }

  /** After pushing `vs` the list holds its old contents followed by `vs`, in order. */
  lemma {:induction false} PushAllAppends(m: Store, key: string, vs: seq<string>)
    ensures Lookup(PushAll(m, key, vs), key) == Lookup(m, key) + vs
    ensures forall k :: k != key ==> Lookup(PushAll(m, key, vs), k) == Lookup(m, k)
    decreases |vs|
  {
    if vs != [] {
      PushAllAppends(Pushed(m, key, vs[0]), key, vs[1..]);
      assert Lookup(m, key) + [vs[0]] + vs[1..] == Lookup(m, key) + vs;
    }
  }

  /** The Redis server at one host and port. */
  class Server {
    /** The key space. */
    var store: Store
    /** Whether the server can be reached now; the environment decides this. */
    var reachable: bool

    ghost predicate Valid()
      reads this
    {
      Canonical(store)
    }

    constructor (reachable: bool)
      ensures Valid() && store == map[] && this.reachable == reachable
    {
      store := map[];
      this.reachable := reachable;
    }

    /** PING: succeeds exactly when the server is reachable. */
    method Ping() returns (ok: bool)
      ensures ok == reachable
    {
      ok := reachable;
    }

    /** RPUSH `key` `v`. */
    method RPush(key: string, v: string) returns (ok: bool)
      requires Valid()
      modifies this`store
      ensures Valid()
      ensures ok == reachable
      ensures store == if ok then Pushed(old(store), key, v) else old(store)
    {
      ok := reachable;
      if ok {
        store := Pushed(store, key, v);
      }
    }

    /** BLPOP `keys`, returning at once when every list is empty. */
    method BLPop(keys: seq<string>) returns (ok: bool, out: Option<(string, string)>)
      requires Valid()
      modifies this`store
      ensures Valid()
      ensures ok == reachable
      ensures ok ==> (out, store) == PopFirst(old(store), keys)
      ensures !ok ==> out == None && store == old(store)
    {
      ok := reachable;
      out := None;
      if ok {
        var popped := PopFirst(store, keys);
        out, store := popped.0, popped.1;
      }
    }

    /** DEL `key`. */
    method Delete(key: string) returns (ok: bool)
      requires Valid()
      modifies this`store
      ensures Valid()
      ensures ok == reachable
      ensures store == if ok then Deleted(old(store), [key]) else old(store)
    {
      ok := reachable;
      if ok {
        store := Deleted(store, [key]);
      }
    }
  }
}
