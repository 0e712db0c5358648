/**
 * JavaScript object spread, `{ ...a, ...b, ...c }`, over plain objects seen as maps from
 * property names to values: every property of every layer is present, and a property set
 * by several layers takes the value of the last (right-most) layer that sets it.
 */
module ObjectSpread {

  /** Layer `i` of `layers` sets the key `k`. */
  ghost predicate SetsKey<K, V>(layers: seq<map<K, V>>, i: int, k: K) {
    0 <= i < |layers| && k in layers[i]
  }

  /** Layer `i` is the last layer that sets `k`: no later layer overrides it. */
  ghost predicate LastToSet<K, V>(layers: seq<map<K, V>>, i: int, k: K) {
    SetsKey(layers, i, k) && forall j :: i < j < |layers| ==> k !in layers[j]
  }

  /** The object `{ ...layers[0], ..., ...layers[|layers| - 1] }`. */
  function Spread<K(!new), V>(layers: seq<map<K, V>>): map<K, V>
    decreases |layers|
  {
    if |layers| == 0 then map[]
    else Spread(layers[..|layers| - 1]) + layers[|layers| - 1]
  }

  /** Every key some layer sets is in the spread. */
  lemma {:induction false} SpreadHasEveryKey<K(!new), V>(layers: seq<map<K, V>>)
    ensures forall i, k :: SetsKey(layers, i, k) ==> k in Spread(layers)
    decreases |layers|
  {
    if |layers| > 0 {
      var earlier := layers[..|layers| - 1];
      SpreadHasEveryKey(earlier);
      assert Spread(layers) == Spread(earlier) + layers[|layers| - 1];
      forall i, k | SetsKey(layers, i, k)
        ensures k in Spread(layers)
      {
        if i < |earlier| {
          assert SetsKey(earlier, i, k);
        }
      }
    }
  }

  /** Every key of the spread is set by some layer. */
  lemma {:induction false} SpreadHasOnlyLayerKeys<K(!new), V>(layers: seq<map<K, V>>)
    ensures forall k :: k in Spread(layers) ==> exists i :: SetsKey(layers, i, k)
    decreases |layers|
  {
    if |layers| > 0 {
      var earlier := layers[..|layers| - 1];
      var last := layers[|layers| - 1];
      SpreadHasOnlyLayerKeys(earlier);
      assert Spread(layers) == Spread(earlier) + last;
      forall k | k in Spread(layers)
        ensures exists i :: SetsKey(layers, i, k)
      {
        if k in last {
          assert SetsKey(layers, |layers| - 1, k);
        } else {
          assert k in Spread(earlier);
          var i :| SetsKey(earlier, i, k);
          assert SetsKey(layers, i, k);
        }
      }
    }
  }

  /** A key takes the value of the last layer that sets it. */
  lemma {:induction false} SpreadTakesLastValue<K(!new), V>(layers: seq<map<K, V>>)
    ensures forall i, k :: LastToSet(layers, i, k) ==> k in Spread(layers) && Spread(layers)[k] == layers[i][k]
    decreases |layers|
  {
    if |layers| > 0 {
      var earlier := layers[..|layers| - 1];
      SpreadTakesLastValue(earlier);
      assert Spread(layers) == Spread(earlier) + layers[|layers| - 1];
      forall i, k | LastToSet(layers, i, k)
        ensures k in Spread(layers) && Spread(layers)[k] == layers[i][k]
      {
        if i < |earlier| {
          assert LastToSet(earlier, i, k);
        }
      }
    }
  }

  /**
   * The meaning of a spread: a key is present exactly when some layer sets it, and then
   * it holds the value given by the last layer that sets it.
   */
  lemma SpreadLastWins<K(!new), V>(layers: seq<map<K, V>>)
    ensures forall k :: k in Spread(layers) <==> exists i :: SetsKey(layers, i, k)
    ensures forall i, k :: LastToSet(layers, i, k) ==> k in Spread(layers) && Spread(layers)[k] == layers[i][k]
  {
    SpreadHasEveryKey(layers);
    SpreadHasOnlyLayerKeys(layers);
    SpreadTakesLastValue(layers);
  }

  /** Three spreads are the right-biased union of the three objects. */
  lemma SpreadOfThree<K(!new), V>(a: map<K, V>, b: map<K, V>, c: map<K, V>)
    ensures Spread([a, b, c]) == a + b + c
  {
    var layers := [a, b, c];
    var m := Spread(layers);
    SpreadLastWins(layers);
    forall k | k in a + b + c
      ensures k in m && m[k] == (a + b + c)[k]
    {
      if k in c {
        assert LastToSet(layers, 2, k);
      } else if k in b {
        assert LastToSet(layers, 1, k);
      } else {
        assert LastToSet(layers, 0, k);
      }
    }
    forall k | k in m
      ensures k in a + b + c
    {
      var i :| SetsKey(layers, i, k);
      assert layers[i] == a || layers[i] == b || layers[i] == c;
    }
  }
}
