/** The recency lists of the gateway indexes: every key of the map once, oldest first. */
module Recency {

  ghost predicate NoDuplicates(order: seq<string>) {
    forall i, j :: 0 <= i < j < |order| ==> order[i] != order[j]
  }

  /** The list holds exactly the keys, each once. */
  ghost predicate Lists(order: seq<string>, keys: set<string>) {
    && NoDuplicates(order) && |order| == |keys|
    && forall k :: k in order <==> k in keys
  }

  /** The list without one key: removing its element. */
  function Without(order: seq<string>, key: string): (rest: seq<string>)
    ensures forall k :: k in rest ==> k in order
    ensures key !in order ==> rest == order
  {
    if order == [] then [] else
    if order[0] == key then order[1..] else [order[0]] + Without(order[1..], key)
  }

  function MoveToBack(order: seq<string>, key: string): seq<string> { Without(order, key) + [key] }

  lemma {:induction false} WithoutElements(order: seq<string>, key: string)
    requires NoDuplicates(order)
    ensures NoDuplicates(Without(order, key)) && key !in Without(order, key)
    ensures forall k :: k in Without(order, key) <==> k in order && k != key
  {
    if order != [] && order[0] != key {
      WithoutElements(order[1..], key);
      var rest := Without(order[1..], key);
      assert order[0] !in order[1..];
      assert Without(order, key) == [order[0]] + rest;
      forall k ensures k in Without(order, key) <==> k in order && k != key {
        assert k in order <==> k == order[0] || k in order[1..];
      }
    } else if order != [] {
      forall k ensures k in order[1..] <==> k in order && k != key {
        assert k in order <==> k == order[0] || k in order[1..];
      }
    }
  }

  lemma {:induction false} ListSize(order: seq<string>, keys: set<string>)
    requires NoDuplicates(order) && forall k :: k in order <==> k in keys
    ensures Lists(order, keys)
  {
    if order == [] {
      assert keys == {};
    } else {
      var rest := keys - {order[0]};
      forall k ensures k in order[1..] <==> k in rest {
        assert k in order <==> k == order[0] || k in order[1..];
      }
      ListSize(order[1..], rest);
    }
  }

  lemma RemovedFromList(order: seq<string>, keys: set<string>, key: string)
    requires Lists(order, keys)
    ensures Lists(Without(order, key), keys - {key}) && key !in Without(order, key)
    ensures forall k :: k in Without(order, key) ==> k in keys
  {
    WithoutElements(order, key);
    ListSize(Without(order, key), keys - {key});
  }

  lemma PushedBack(order: seq<string>, keys: set<string>, key: string)
    requires Lists(order, keys) && key !in keys
    ensures Lists(order + [key], keys + {key}) && key !in order
    ensures forall k :: k in order ==> k in keys
  {
    ListSize(order + [key], keys + {key});
  }

  lemma MovedToBack(order: seq<string>, keys: set<string>, key: string)
    requires Lists(order, keys) && key in keys
    ensures Lists(MoveToBack(order, key), keys)
  {
    RemovedFromList(order, keys, key);
    PushedBack(Without(order, key), keys - {key}, key);
    assert keys - {key} + {key} == keys;
  }

  lemma FrontIsListed(order: seq<string>, keys: set<string>)
    requires Lists(order, keys)
    ensures |order| == |keys|
    ensures order != [] ==> order[0] in keys && Lists(order[1..], keys - {order[0]})
    ensures forall k :: k in order ==> k in keys
  {
    if order != [] {
      assert order[0] in order;
      FrontIsRemoved(order);
      RemovedFromList(order, keys, order[0]);
    }
  }

  lemma FrontIsRemoved(order: seq<string>)
    requires order != []
    ensures Without(order, order[0]) == order[1..]
  {
  }

  /** Oldest first: a weight that never falls along the list. */
  ghost predicate Ascending(order: seq<string>, at: string -> real) {
    forall i, j :: 0 <= i < j < |order| ==> at(order[i]) <= at(order[j])
  }

  lemma {:induction false} WithoutAscending(order: seq<string>, key: string, at: string -> real)
    requires Ascending(order, at)
    ensures Ascending(Without(order, key), at)
  {
    if order != [] && order[0] != key {
      WithoutAscending(order[1..], key, at);
      var rest := Without(order[1..], key);
      forall i | 0 <= i < |rest| ensures at(order[0]) <= at(rest[i]) {
        assert rest[i] in order[1..];
        var j :| 0 <= j < |order[1..]| && order[1..][j] == rest[i];
        assert order[j + 1] == rest[i];
      }
    }
  }
}
