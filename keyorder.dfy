/** The insertion order of the keys of a JavaScript object whose keys are not
    array indices: a new key goes last, an overwritten key keeps its place, a
    deleted key leaves the others in their order. */
module KeyOrder {

  predicate NoDup(s: seq<string>)
  {
    forall i, j :: 0 <= i < j < |s| ==> s[i] != s[j]
  }

  /** The key order after `delete obj[id]`. */
  function Without(s: seq<string>, id: string): (r: seq<string>)
    ensures forall x :: x in r <==> x in s && x != id
    ensures NoDup(s) ==> NoDup(r)
    ensures id !in s ==> r == s
    decreases |s|
  {
    if s == [] then []
    else
      var init, last := s[..|s| - 1], s[|s| - 1];
      assert s == init + [last];
      assert NoDup(s) ==> NoDup(init) && last !in init by {
        if NoDup(s) {
          forall i | 0 <= i < |init| ensures init[i] != last {
            assert init[i] == s[i];
          }
        }
      }
      Without(init, id) + (if last == id then [] else [last])
  }

  /** The keys of m, each once, in the order `order` gives them. */
  predicate KeysInOrder<V>(m: map<string, V>, order: seq<string>)
  {
    && NoDup(order)
    && (forall i :: 0 <= i < |order| ==> order[i] in m)
    && (forall id :: id in m ==> id in order)
  }

  /** `delete m[id]` keeps the order in step with the keys. */
  lemma DeleteKeepsKeysInOrder<V>(m: map<string, V>, order: seq<string>, id: string)
    requires KeysInOrder(m, order)
    ensures KeysInOrder(m - {id}, Without(order, id))
  {
    var remaining := Without(order, id);
    forall i | 0 <= i < |remaining| ensures remaining[i] in m && remaining[i] != id {
      assert remaining[i] in remaining;
    }
  }

  lemma {:induction false} DistinctCount(s: seq<string>)
    requires NoDup(s)
    ensures |set x | x in s| == |s|
  {
    if s != [] {
      var init, last := s[..|s| - 1], s[|s| - 1];
      assert s == init + [last];
      assert NoDup(init) && last !in init by {
        forall i | 0 <= i < |init| ensures init[i] != last {
          assert init[i] == s[i];
        }
      }
      DistinctCount(init);
      assert (set x | x in s) == (set x | x in init) + {last};
    }
  }

  /** The order lists exactly as many keys as the map has. */
  lemma KeysInOrderCount<V>(m: map<string, V>, order: seq<string>)
    requires KeysInOrder(m, order)
    ensures |order| == |m|
  {
    DistinctCount(order);
    assert (set x | x in order) == m.Keys;
  }

  /** `delete` keeps the remaining keys in their relative order: deleting
      from a concatenation deletes from each part. */
  lemma {:induction false} WithoutKeepsOrder(s: seq<string>, t: seq<string>, id: string)
    ensures Without(s + t, id) == Without(s, id) + Without(t, id)
    decreases |t|
  {
    if t == [] {
      assert s + t == s;
    } else {
      var init, last := t[..|t| - 1], t[|t| - 1];
      assert (s + t)[..|s + t| - 1] == s + init;
      assert (s + t)[|s + t| - 1] == last;
      WithoutKeepsOrder(s, init, id);
    }
  }
}
