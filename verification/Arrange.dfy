/** Listing the keys of a map in a given order, whatever order they come out of the map. */
module Arrange {

  ghost predicate OrdersKeys<T>(leq: (T, T) -> bool, keys: set<T>) {
    && (forall a, b | a in keys && b in keys :: leq(a, b) || leq(b, a))
    && (forall a, b, c | a in keys && b in keys && c in keys && leq(a, b) && leq(b, c) :: leq(a, c))
  }

  predicate Arranged<T>(ids: seq<T>, leq: (T, T) -> bool) {
    forall i, j | 0 <= i < j < |ids| :: leq(ids[i], ids[j])
  }

  predicate NoRepeats<T(==)>(ids: seq<T>) {
    forall i, j | 0 <= i < j < |ids| :: ids[i] != ids[j]
  }

  lemma ArrangedAround<T>(front: seq<T>, id: T, back: seq<T>, leq: (T, T) -> bool)
    requires Arranged(front + back, leq)
    requires forall i | 0 <= i < |front| :: leq(front[i], id)
    requires forall i | 0 <= i < |back| :: leq(id, back[i])
    ensures Arranged(front + [id] + back, leq)
  {
    var all, r := front + back, front + [id] + back;
    forall i, j | 0 <= i < j < |r| ensures leq(r[i], r[j]) {
      var i', j' := if i < |front| then i else i - 1, if j < |front| then j else j - 1;
      if i != |front| && j != |front| {
        assert r[i] == all[i'] && r[j] == all[j'];
      }
    }
  }

  lemma DistinctAround<T>(front: seq<T>, id: T, back: seq<T>)
    requires NoRepeats(front + back) && id !in front + back
    ensures NoRepeats(front + [id] + back)
    ensures forall k :: k in front + [id] + back <==> k in front + back || k == id
  {
    var all, r := front + back, front + [id] + back;
    forall i, j | 0 <= i < j < |r| ensures r[i] != r[j] {
      var i', j' := if i < |front| then i else i - 1, if j < |front| then j else j - 1;
      assert i != |front| ==> r[i] == all[i'];
      assert j != |front| ==> r[j] == all[j'];
    }
  }

  /** Puts a new key behind those it need not precede. */
  method Insert<T(==)>(ids: seq<T>, id: T, leq: (T, T) -> bool, ghost keys: set<T>) returns (r: seq<T>)
    requires OrdersKeys(leq, keys) && id in keys && id !in ids && forall k | k in ids :: k in keys
    requires Arranged(ids, leq) && NoRepeats(ids)
    ensures Arranged(r, leq) && NoRepeats(r) && forall k :: k in r <==> k in ids || k == id
  {
    var n := |ids|;
    while n > 0 && !leq(ids[n - 1], id)
      invariant 0 <= n <= |ids|
      invariant forall i | n <= i < |ids| :: leq(id, ids[i])
    {
      n := n - 1;
    }
    r := ids[..n] + [id] + ids[n..];
    forall i | 0 <= i < n ensures leq(ids[i], id) {
      assert i < n - 1 ==> leq(ids[i], ids[n - 1]);
    }
    assert ids[..n] + ids[n..] == ids;
    ArrangedAround(ids[..n], id, ids[n..], leq);
    DistinctAround(ids[..n], id, ids[n..]);
  }

  /** All the keys, each once, in order; ties come out in any order. */
  method ListKeys<T(==)>(keys: set<T>, leq: (T, T) -> bool) returns (ids: seq<T>)
    requires OrdersKeys(leq, keys)
    ensures Arranged(ids, leq) && NoRepeats(ids) && forall k :: k in ids <==> k in keys
  {
    ids := [];
    var rest := keys;
    while rest != {}
      invariant rest <= keys && Arranged(ids, leq) && NoRepeats(ids)
      invariant forall k :: k in ids <==> k in keys - rest
      decreases rest
    {
      var id :| id in rest;
      ids := Insert(ids, id, leq, keys);
      rest := rest - {id};
    }
  }

  /** Character by character, a prefix before its extensions. */
  predicate TextLeq(a: string, b: string) {
    a == "" || (b != "" && (a[0] < b[0] || (a[0] == b[0] && TextLeq(a[1..], b[1..]))))
  }

  lemma {:induction false} TextTotal(a: string, b: string)
    ensures TextLeq(a, b) || TextLeq(b, a)
  {
    if a != "" && b != "" && a[0] == b[0] {
      TextTotal(a[1..], b[1..]);
    }
  }

  lemma {:induction false} TextTransitive(a: string, b: string, c: string)
    requires TextLeq(a, b) && TextLeq(b, c)
    ensures TextLeq(a, c)
  {
    if a != "" && a[0] == b[0] && b[0] == c[0] {
      TextTransitive(a[1..], b[1..], c[1..]);
    }
  }

  lemma TextOrdersKeys(keys: set<string>)
    ensures OrdersKeys(TextLeq, keys)
  {
    forall a, b ensures TextLeq(a, b) || TextLeq(b, a) {
      TextTotal(a, b);
    }
    forall a, b, c | TextLeq(a, b) && TextLeq(b, c) ensures TextLeq(a, c) {
      TextTransitive(a, b, c);
    }
  }
}
