/** Map building shared by the configuration loaders. */
module Collections {

  /**
    The map obtained by inserting `pairs` one after the other into an empty
    map, as a loop of `HashMap::insert` does: every key of the list is
    present (and no other), and `FromPairsLastWins` says which value a key
    listed several times keeps.
   */
  function FromPairs<K(==), V>(pairs: seq<(K, V)>): (m: map<K, V>)
    ensures m.Keys == set i | 0 <= i < |pairs| :: pairs[i].0
  {
    if |pairs| == 0 then map[]
    else
      var init := pairs[..|pairs| - 1];
      var last := pairs[|pairs| - 1];
      assert forall i :: 0 <= i < |init| ==> init[i] == pairs[i];
      FromPairs(init)[last.0 := last.1]
  }

  /** The value stored under a key is the one of the last pair naming that key. */
  lemma {:induction false} FromPairsLastWins<K, V>(pairs: seq<(K, V)>, i: nat)
    requires i < |pairs|
    requires forall j :: i < j < |pairs| ==> pairs[j].0 != pairs[i].0
    ensures pairs[i].0 in FromPairs(pairs)
    ensures FromPairs(pairs)[pairs[i].0] == pairs[i].1
  {
    if i < |pairs| - 1 {
      var init := pairs[..|pairs| - 1];
      FromPairsLastWins(init, i);
    }
  }

  /** Every value stored comes from a pair of the list. */
  lemma {:induction false} FromPairsValueFrom<K, V>(pairs: seq<(K, V)>, k: K)
    requires k in FromPairs(pairs)
    ensures exists i :: 0 <= i < |pairs| && pairs[i] == (k, FromPairs(pairs)[k])
  {
    var init := pairs[..|pairs| - 1];
    var last := pairs[|pairs| - 1];
    if last.0 != k {
      FromPairsValueFrom(init, k);
      var i :| 0 <= i < |init| && init[i] == (k, FromPairs(init)[k]);
      assert pairs[i] == init[i];
    } else {
      assert pairs[|pairs| - 1] == (k, FromPairs(pairs)[k]);
    }
  }

  /** A listing of a map's entries, each key once, rebuilds that map. */
  lemma FromPairsOfMap<K, V>(pairs: seq<(K, V)>, m: map<K, V>)
    requires forall i, j :: 0 <= i < j < |pairs| ==> pairs[i].0 != pairs[j].0
    requires forall i :: 0 <= i < |pairs| ==> pairs[i].0 in m && m[pairs[i].0] == pairs[i].1
    requires forall k :: k in m ==> exists i :: 0 <= i < |pairs| && pairs[i].0 == k
    ensures FromPairs(pairs) == m
  {
    var r := FromPairs(pairs);
    forall k | k in m
      ensures k in r && r[k] == m[k]
    {
      var i :| 0 <= i < |pairs| && pairs[i].0 == k;
      FromPairsLastWins(pairs, i);
    }
    assert r.Keys == m.Keys;
  }

  /** Some listing, without repetition, of the elements of a set, in an unspecified order (a hash order). */
  ghost function SetToSeq(s: set<string>): (xs: seq<string>)
    ensures |xs| == |s|
    ensures forall x :: x in s <==> x in xs
    ensures forall i, j :: 0 <= i < j < |xs| ==> xs[i] != xs[j]
    decreases s
  {
    if s == {} then []
    else
      var x :| x in s;
      [x] + SetToSeq(s - {x})
  }
}
