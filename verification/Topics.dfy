// Server-assigned topic keys (include/spraybus/server/topic_map.hpp).

module Topics {
  import opened Wrappers
  import opened Protocol

  // m_map and m_next_key as a value.
  datatype Table = Table(keys: map<Bytes, Key>, next: Key)

  const NO_TOPICS: Table := Table(map[], 1)

  // get_or_create: the table afterwards and the key answered.
  function Resolve(t: Table, name: Bytes): (Table, Key)
  {
    if name in t.keys then (t, t.keys[name])
    else (Table(t.keys[name := t.next], Inc(t.next)), t.next)
  }

  ghost predicate Distinct(names: seq<Bytes>)
  {
    forall i, j :: 0 <= i < j < |names| ==> names[i] != names[j]
  }

  // The key of the i-th topic ever created, counting from 0.
  function NthKey(i: nat): Key { (i + 1) % TWO64 }

  // The table holds exactly the given names, the i-th one with the i-th key.
  ghost predicate Lists(t: Table, names: seq<Bytes>)
  {
    && Distinct(names)
    && (forall name :: name in t.keys <==> name in names)
    && (forall i :: 0 <= i < |names| ==> names[i] in t.keys && t.keys[names[i]] == NthKey(i))
    && t.next == NthKey(|names|)
  }

  // The names in order of creation, after one more lookup.
  function NamesAfter(names: seq<Bytes>, name: Bytes): seq<Bytes>
  {
    if name in names then names else names + [name]
  }

  lemma ResolveLists(t: Table, names: seq<Bytes>, name: Bytes)
    requires Lists(t, names)
    ensures Lists(Resolve(t, name).0, NamesAfter(names, name))
  {
    hide Lists;
    if name in names {
      OldName(t, names, name);
    } else {
      NewName(t, names, name);
    }
  }

  lemma OldName(t: Table, names: seq<Bytes>, name: Bytes)
    requires Lists(t, names) && name in names
    ensures Resolve(t, name).0 == t
  {
    hide NthKey, Distinct;
  }

  lemma NewName(t: Table, names: seq<Bytes>, name: Bytes)
    requires Lists(t, names) && name !in names
    ensures Lists(Resolve(t, name).0, names + [name])
  {
    hide Distinct;
    var t', names' := Resolve(t, name).0, names + [name];
    DistinctMore(names, name);
    forall i | 0 <= i < |names'|
      ensures names'[i] in t'.keys && t'.keys[names'[i]] == NthKey(i)
    {
      if i < |names| { assert names'[i] == names[i]; }
    }
    NextKey(|names|);
  }

  lemma DistinctMore(names: seq<Bytes>, name: Bytes)
    requires Distinct(names) && name !in names
    ensures Distinct(names + [name])
  {
  }

  lemma NextKey(n: nat)
    ensures Inc(NthKey(n)) == NthKey(n + 1)
  {
  }

  lemma {:induction false} DistinctCardinality(names: seq<Bytes>)
    requires Distinct(names)
    ensures |set n | n in names| == |names|
  {
    if names != [] {
      var front, last := names[..|names| - 1], names[|names| - 1];
      DistinctCardinality(front);
      assert names == front + [last];
      assert (set n | n in names) == (set n | n in front) + {last};
      assert last !in front;
    }
  }

  lemma ListsCardinality(t: Table, names: seq<Bytes>)
    requires Lists(t, names)
    ensures |t.keys| == |names|
  {
    DistinctCardinality(names);
    assert t.keys.Keys == set n | n in names;
  }

  // A lookup changes no binding, removes none and adds at most the one asked for.
  lemma ResolvePermanent(t: Table, name: Bytes)
    ensures var (t', k) := Resolve(t, name);
            && (forall n :: n in t.keys ==> n in t'.keys && t'.keys[n] == t.keys[n])
            && t'.keys.Keys == t.keys.Keys + {name}
            && t'.keys[name] == k
            && Resolve(t', name) == (t', k)
  {
  }

  ghost predicate Injective(t: Table)
  {
    forall m, n :: m in t.keys && n in t.keys && t.keys[m] == t.keys[n] ==> m == n
  }

  ghost predicate Nonzero(t: Table)
  {
    forall n :: n in t.keys ==> t.keys[n] != 0
  }

  lemma SmallKeys(t: Table, names: seq<Bytes>, n: Bytes) returns (i: nat)
    requires Lists(t, names) && |names| < TWO64 && n in t.keys
    ensures i < |names| && names[i] == n && t.keys[n] == i + 1
  {
    i :| i < |names| && names[i] == n;
    assert NthKey(i) == i + 1;
  }

  lemma FewTopics(t: Table, names: seq<Bytes>)
    requires Lists(t, names) && |names| < TWO64
    ensures Injective(t) && Nonzero(t)
  {
    forall n | n in t.keys ensures t.keys[n] != 0 {
      var i := SmallKeys(t, names, n);
    }
    forall m, n | m in t.keys && n in t.keys && t.keys[m] == t.keys[n] ensures m == n {
      var i := SmallKeys(t, names, m);
      var j := SmallKeys(t, names, n);
    }
  }

  // Names map injectively to nonzero keys exactly while there are fewer than 2^64 of them.
  lemma InjectiveNonzeroExactly(t: Table, names: seq<Bytes>)
    requires Lists(t, names)
    ensures Injective(t) && Nonzero(t) <==> |t.keys| < TWO64
  {
    ListsCardinality(t, names);
    if |names| < TWO64 {
      FewTopics(t, names);
    } else {
      // the 2^64-th topic receives key 0
      assert NthKey(TWO64 - 1) == 0;
      assert t.keys[names[TWO64 - 1]] == 0;
    }
  }

  // Below 2^64 topics the keys are exactly 1..n.
  lemma KeysDense(t: Table, names: seq<Bytes>)
    requires Lists(t, names)
    requires |t.keys| < TWO64
    ensures forall k :: k in t.keys.Values <==> 1 <= k <= |t.keys|
    ensures t.next == (|t.keys| + 1) % TWO64
  {
    ListsCardinality(t, names);
    forall k | 1 <= k <= |names| ensures k in t.keys.Values {
      assert NthKey(k - 1) == k;
      assert t.keys[names[k - 1]] == k;
    }
    forall k | k in t.keys.Values ensures 1 <= k <= |names| {
      var n :| n in t.keys && t.keys[n] == k;
      var i := SmallKeys(t, names, n);
    }
  }

  class TopicMap {
    var m_map: map<Bytes, Key>
    var m_next_key: Key
    ghost var created: seq<Bytes>

    ghost function View(): Table
      reads this
    {
      Table(m_map, m_next_key)
    }

    // Every topic created so far has the key of its rank.
    ghost predicate Valid()
      reads this
    {
      Lists(View(), created)
    }

    constructor ()
      ensures Valid() && View() == NO_TOPICS
    {
      m_map, m_next_key, created := map[], 1, [];
    }

    method GenerateKey() returns (key: Key)
      modifies this`m_next_key
      ensures key == old(m_next_key) && m_next_key == Inc(key)
    {
      key := m_next_key;
      m_next_key := Inc(m_next_key);
    }

    method GetOrCreate(topic: Bytes) returns (key: Key)
      requires Valid()
      modifies this
      ensures Valid()
      ensures (View(), key) == Resolve(old(View()), topic)
      ensures created == NamesAfter(old(created), topic)
    {
      ResolveLists(View(), created, topic);
      if topic in m_map {
        return m_map[topic];
      } else {
        key := GenerateKey();
        m_map := m_map[topic := key];
        created := created + [topic];
      }
    }

    // The key of a known topic: the answer a lookup would give without creating anything.
    method Get(topic: Bytes) returns (key: Option<Key>)
      requires Valid()
      ensures key.Some? <==> Resolve(View(), topic).0 == View()
      ensures key.Some? ==> key.value == Resolve(View(), topic).1
    {
      if topic in m_map {
        return Some(m_map[topic]);
      } else {
        return None;
      }
    }
  }
}
