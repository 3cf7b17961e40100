/** Options, results and the two dictionary idioms the service uses: a dictionary listed in
    key order, and a dictionary rebuilt from a list by a key computed from each value. */
module Collections {

  datatype Option<+T> = None | Some(value: T)

  datatype Result<+T, +E> = Ok(value: T) | Err(error: E)

  /** Every entry of m is an entry of m'. */
  ghost predicate Grown<K, V>(m: map<K, V>, m': map<K, V>)
  {
    forall k :: k in m ==> k in m' && m'[k] == m[k]
  }

  lemma Element<T>(s: set<T>) returns (x: T)
    requires s != {}
    ensures x in s
  {
    x :| x in s;
  }

  lemma {:induction false} MinimumExists(s: set<int>)
    requires s != {}
    ensures exists m :: m in s && forall x :: x in s ==> m <= x
  {
    var m := Element(s);
    var rest := s - {m};
    if rest == {} {
      assert forall x :: x in s ==> x == m || x in rest;
    } else {
      MinimumExists(rest);
      var n :| n in rest && forall x :: x in rest ==> n <= x;
      var least := if n < m then n else m;
      assert forall x :: x in s ==> x == m || x in rest;
      assert least in s && forall x :: x in s ==> least <= x;
    }
  }

  function Minimum(s: set<int>): (m: int)
    requires s != {}
    ensures m in s && forall x :: x in s ==> m <= x
  {
    MinimumExists(s);
    var m :| m in s && forall x :: x in s ==> m <= x;
    m
  }

  /** `[value for _, value in sorted(m.items())]` */
  function SortedValues<V>(m: map<int, V>): (vs: seq<V>)
    decreases |m.Keys|
  {
    if m == map[] then []
    else
      var k := Minimum(m.Keys);
      assert (m - {k}).Keys == m.Keys - {k};
      [m[k]] + SortedValues(m - {k})
  }

  /** `{key(value): value for value in vs}`; a later value replaces an earlier one. */
  function Keyed<K, V>(vs: seq<V>, key: V -> K): (m: map<K, V>)
  {
    if vs == [] then map[] else map[key(vs[0]) := vs[0]] + Keyed(vs[1..], key)
  }

  /** Listing a dictionary in key order and rebuilding it by the key each value carries gives
      the dictionary back; so the listing determines the dictionary. */
  lemma {:induction false} KeyedSortedValues<V>(m: map<int, V>, key: V -> int)
    requires forall k :: k in m ==> key(m[k]) == k
    ensures Keyed(SortedValues(m), key) == m
    decreases |m.Keys|
  {
    if m != map[] {
      var k := Minimum(m.Keys);
      assert (m - {k}).Keys == m.Keys - {k};
      KeyedSortedValues(m - {k}, key);
      var vs := SortedValues(m);
      assert vs[1..] == SortedValues(m - {k});
      assert map[k := m[k]] + (m - {k}) == m;
    }
  }

  /** A key of a rebuilt dictionary comes from some listed value, which it maps to. */
  lemma {:induction false} KeyedMember<K, V>(vs: seq<V>, key: V -> K, k: K)
    ensures k in Keyed(vs, key) <==> exists i :: 0 <= i < |vs| && key(vs[i]) == k
    ensures k in Keyed(vs, key) ==> Keyed(vs, key)[k] in vs && key(Keyed(vs, key)[k]) == k
  {
    if vs != [] {
      KeyedMember(vs[1..], key, k);
      if k in Keyed(vs[1..], key) {
        var i :| 0 <= i < |vs[1..]| && key(vs[1..][i]) == k;
        assert key(vs[i + 1]) == k;
      } else if exists i :: 0 <= i < |vs| && key(vs[i]) == k {
        var i :| 0 <= i < |vs| && key(vs[i]) == k;
        if i > 0 {
          assert key(vs[1..][i - 1]) == k;
        }
      }
    }
  }

  function Elements<T(==)>(s: seq<T>): (elements: set<T>)
  {
    set x | x in s
  }

  /** A sequence without repetition has as many elements as places. */
  lemma {:induction false} DistinctCount<T>(s: seq<T>)
    requires forall i, j :: 0 <= i < j < |s| ==> s[i] != s[j]
    ensures |Elements(s)| == |s|
  {
    if s != [] {
      var front := s[..|s| - 1];
      DistinctCount(front);
      assert Elements(s) == Elements(front) + {s[|s| - 1]};
    }
  }

  // ---- lists kept in part -----------------------------------------------------------------

  ghost predicate Ascending(places: seq<nat>)
  {
    forall i, j :: 0 <= i < j < |places| ==> places[i] < places[j]
  }

  ghost predicate SiftsAt<A(!new), B(!new)>(from: seq<A>, keep: A -> bool, value: A -> B, to: seq<B>, places: seq<nat>)
  {
    Ascending(places) && KeptAt(from, keep, places) && ValuesAt(from, value, to, places)
  }

  ghost predicate KeptAt<A(!new)>(from: seq<A>, keep: A -> bool, places: seq<nat>)
  {
    && (forall j :: 0 <= j < |places| ==> places[j] < |from| && keep(from[places[j]]))
    && forall i :: 0 <= i < |from| && keep(from[i]) ==> exists j :: 0 <= j < |places| && places[j] == i
  }

  ghost predicate ValuesAt<A(!new), B(!new)>(from: seq<A>, value: A -> B, to: seq<B>, places: seq<nat>)
  {
    |places| == |to| && forall j :: 0 <= j < |to| ==> places[j] < |from| && to[j] == value(from[places[j]])
  }

  /** `[value(x) for x in from if keep(x)]`: the values of the kept entries, in their order. */
  ghost predicate Sifts<A(!new), B(!new)>(from: seq<A>, keep: A -> bool, value: A -> B, to: seq<B>)
  {
    exists places :: SiftsAt(from, keep, value, to, places)
  }

  ghost function Shifted(places: seq<nat>, offset: nat): (shifted: seq<nat>)
  {
    seq(|places|, j requires 0 <= j < |places| => places[j] + offset)
  }

  lemma SiftsNothing<A(!new), B(!new)>(from: seq<A>, keep: A -> bool, value: A -> B)
    requires forall i :: 0 <= i < |from| ==> !keep(from[i])
    ensures Sifts(from, keep, value, [])
  {
    assert SiftsAt(from, keep, value, [], []);
  }

  lemma SiftsOne<A(!new), B(!new)>(x: A, keep: A -> bool, value: A -> B)
    ensures Sifts([x], keep, value, if keep(x) then [value(x)] else [])
  {
    assert SiftsAt([x], keep, value, if keep(x) then [value(x)] else [], if keep(x) then [0] else []);
  }

  lemma AscendingJoin(places: seq<nat>, later: seq<nat>, offset: nat)
    requires Ascending(places) && Ascending(later) && forall i :: 0 <= i < |places| ==> places[i] < offset
    ensures Ascending(places + Shifted(later, offset))
  {
  }

  lemma KeptJoin<A(!new)>(from: seq<A>, more: seq<A>, keep: A -> bool, places: seq<nat>, later: seq<nat>)
    requires KeptAt(from, keep, places) && KeptAt(more, keep, later)
    ensures KeptAt(from + more, keep, places + Shifted(later, |from|))
  {
    var all, joined := places + Shifted(later, |from|), from + more;
    forall i | 0 <= i < |joined| && keep(joined[i])
      ensures exists j :: 0 <= j < |all| && all[j] == i
    {
      if i < |from| {
        var j :| 0 <= j < |places| && places[j] == i;
        assert all[j] == i;
      } else {
        assert joined[i] == more[i - |from|];
        var j :| 0 <= j < |later| && later[j] == i - |from|;
        assert all[|places| + j] == i;
      }
    }
  }

  lemma ValuesJoin<A(!new), B(!new)>(from: seq<A>, more: seq<A>, value: A -> B, to: seq<B>, rest: seq<B>,
                                     places: seq<nat>, later: seq<nat>)
    requires ValuesAt(from, value, to, places) && ValuesAt(more, value, rest, later)
    ensures ValuesAt(from + more, value, to + rest, places + Shifted(later, |from|))
  {
  }

  lemma SiftsJoin<A(!new), B(!new)>(from: seq<A>, more: seq<A>, keep: A -> bool, value: A -> B, to: seq<B>,
                                    rest: seq<B>)
    requires Sifts(from, keep, value, to) && Sifts(more, keep, value, rest)
    ensures Sifts(from + more, keep, value, to + rest)
  {
    var places :| SiftsAt(from, keep, value, to, places);
    var later :| SiftsAt(more, keep, value, rest, later);
    AscendingJoin(places, later, |from|);
    KeptJoin(from, more, keep, places, later);
    ValuesJoin(from, more, value, to, rest, places, later);
    assert SiftsAt(from + more, keep, value, to + rest, places + Shifted(later, |from|));
  }

  lemma SiftsHead<A(!new), B(!new)>(from: seq<A>, keep: A -> bool, value: A -> B, rest: seq<B>)
    requires from != [] && Sifts(from[1..], keep, value, rest)
    ensures Sifts(from, keep, value, if keep(from[0]) then [value(from[0])] + rest else rest)
  {
    SiftsOne(from[0], keep, value);
    SiftsJoin([from[0]], from[1..], keep, value, if keep(from[0]) then [value(from[0])] else [], rest);
    assert [from[0]] + from[1..] == from && [] + rest == rest;
  }

  lemma SiftsLast<A(!new), B(!new)>(from: seq<A>, keep: A -> bool, value: A -> B, front: seq<B>)
    requires from != [] && Sifts(from[..|from| - 1], keep, value, front)
    ensures var x := from[|from| - 1]; Sifts(from, keep, value, if keep(x) then front + [value(x)] else front)
  {
    var x := from[|from| - 1];
    SiftsOne(x, keep, value);
    SiftsJoin(from[..|from| - 1], [x], keep, value, front, if keep(x) then [value(x)] else []);
    assert from[..|from| - 1] + [x] == from && front + [] == front;
  }
}
