/**
  The chained hash table (src/internal/kcpmux_hashtable.c).  Nodes carry their
  own key; the table is a finite map whatever the hash function.
 */
module HashTable {

  datatype Option<T> = Some(value: T) | None

  function Remove<N(==, !new)>(s: seq<N>, n: N): (r: seq<N>)
    ensures forall x :: x in r <==> x in s && x != n
  {
    if s == [] then [] else if s[0] == n then Remove(s[1..], n) else [s[0]] + Remove(s[1..], n)
  }

  class Table<K(==, !new), N(==, !new)> {
    const hash: K -> nat
    const keyOf: N -> K
    const size: int
    var buckets: array<seq<N>>
    var num: int
    ghost var contents: map<K, N>

    function Slot(key: K): (i: int)
      requires size > 0
      ensures 0 <= i < size
    {
      hash(key) % size
    }

    /** Every node sits once in the chain of its key, and the chains hold exactly the map. */
    ghost predicate Valid()
      reads this, buckets
    {
      && size >= 11 && buckets.Length == size && num == |contents|
      && (forall i, n | 0 <= i < size && n in buckets[i] ::
            i == Slot(keyOf(n)) && keyOf(n) in contents && contents[keyOf(n)] == n)
      && (forall k | k in contents :: keyOf(contents[k]) == k && contents[k] in buckets[Slot(k)])
    }

    constructor (requested: int, hash: K -> nat, keyOf: N -> K)
      ensures Valid() && fresh(buckets) && contents == map[] && this.hash == hash && this.keyOf == keyOf
      ensures size == if requested > 11 then requested else 11
    {
      this.hash, this.keyOf := hash, keyOf;
      size := if requested > 11 then requested else 11;
      num, contents := 0, map[];
      buckets := new seq<N>[if requested > 11 then requested else 11](_ => []);
    }

    /** Looks a key up along its chain. */
    method Find(key: K) returns (node: Option<N>)
      requires Valid()
      ensures node == if key in contents then Some(contents[key]) else None
    {
      var chain := buckets[Slot(key)];
      var i := 0;
      while i < |chain|
        invariant 0 <= i <= |chain|
        invariant forall j | 0 <= j < i :: keyOf(chain[j]) != key
      {
        if keyOf(chain[i]) == key {
          return Some(chain[i]);
        }
        i := i + 1;
      }
      return None;
    }

    /** A node whose key is taken is not inserted. */
    method Add(node: N)
      requires Valid()
      modifies this`num, this`contents, buckets
      ensures Valid() && buckets == old(buckets)
      ensures contents == if keyOf(node) in old(contents) then old(contents) else old(contents)[keyOf(node) := node]
    {
      var key := keyOf(node);
      var taken := Find(key);
      if taken.None? {
        buckets[Slot(key)] := [node] + buckets[Slot(key)];
        num := num + 1;
        contents := contents[key := node];
      }
    }

    /** Deleting a node that is not linked, because its insertion was skipped, does nothing. */
    method Del(node: N)
      requires Valid()
      modifies this`num, this`contents, buckets
      ensures Valid() && buckets == old(buckets)
      ensures contents ==
        if keyOf(node) in old(contents) && old(contents)[keyOf(node)] == node
        then old(contents) - {keyOf(node)} else old(contents)
    {
      var slot := Slot(keyOf(node));
      if node in buckets[slot] {
        buckets[slot] := Remove(buckets[slot], node);
        num := num - 1;
        contents := contents - {keyOf(node)};
        assert old(contents).Keys == contents.Keys + {keyOf(node)};
      }
    }

    method Flush()
      requires Valid()
      modifies this`num, this`contents, buckets
      ensures Valid() && contents == map[]
    {
      for i := 0 to size
        invariant buckets.Length == size && forall j | 0 <= j < i :: buckets[j] == []
      {
        buckets[i] := [];
      }
      num := 0;
      contents := map[];
    }
  }
}
