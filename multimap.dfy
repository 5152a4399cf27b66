/**
 * Multimaps from string keys to ordered lists of string values: the shape of
 * Go's `url.Values` and `http.Header` (both `map[string][]string`).
 */
module Multimap {

  type Values = map<string, seq<string>>

  /** `m[k]` in Go: the values under `k`, or the empty (nil) list when absent. */
  function Get(m: Values, k: string): seq<string>
  {
    if k in m then m[k] else []
  }

  /**
   * `m.Add(k, v)` of `url.Values` (and of `http.Header` once the key is
   * canonical): `m[k] = append(m[k], v)`.
   */
  function AddValue(m: Values, k: string, v: string): (r: Values)
    ensures Get(r, k) == Get(m, k) + [v]
    ensures forall j :: j != k ==> Get(r, j) == Get(m, j)
    ensures r.Keys == m.Keys + {k}
  {
    m[k := Get(m, k) + [v]]
  }

  /**
   * The effect of adding the values `vs` one by one under `k`: nothing when
   * `vs` is empty (the key is not even created), else `vs` appended.
   */
  function AddValues(m: Values, k: string, vs: seq<string>): Values
  {
    if vs == [] then m else m[k := Get(m, k) + vs]
  }

  /** The keys of `add` that carry at least one value. */
  function NonEmptyKeys(add: Values): set<string>
  {
    set k | k in add && add[k] != []
  }

  /**
   * Every value of `add` appended, key by key, to those of `m`: the additive
   * merge that a loop of `Add` calls performs. A key of `add` with no values
   * creates nothing.
   */
  function AddAll(m: Values, add: Values): (r: Values)
    ensures r.Keys == m.Keys + NonEmptyKeys(add)
  {
    map k | k in m.Keys + NonEmptyKeys(add) :: Get(m, k) + Get(add, k)
  }

  /** Under every key, `AddAll` yields the old values followed by the added ones. */
  lemma AddAllGet(m: Values, add: Values, k: string)
    ensures Get(AddAll(m, add), k) == Get(m, k) + Get(add, k)
  {
  }

  /** The entries of `m` whose key is in `s`. */
  function Restrict(m: Values, s: set<string>): Values
  {
    map k | k in m && k in s :: m[k]
  }

  /** Every multimap of `vs` merged into `base`, in list order. */
  function MergeAll(base: Values, vs: seq<Values>): Values
  {
    if vs == [] then base else AddAll(MergeAll(base, vs[..|vs| - 1]), vs[|vs| - 1])
  }

  /** The values of key `k` across `vs`, concatenated in list order. */
  function Column(vs: seq<Values>, k: string): seq<string>
  {
    if vs == [] then [] else Column(vs[..|vs| - 1], k) + Get(vs[|vs| - 1], k)
  }

  // ---------------------------------------------------------------------
  // Properties of the merge
  // ---------------------------------------------------------------------

  /**
   * The merge is additive, not last-write-wins: under every key, the merged
   * values are the base's values followed by each multimap's values in list
   * order.
   */
  lemma {:induction false} MergeAllGet(base: Values, vs: seq<Values>, k: string)
    ensures Get(MergeAll(base, vs), k) == Get(base, k) + Column(vs, k)
  {
    if vs != [] {
      var init, last := vs[..|vs| - 1], vs[|vs| - 1];
      var prev := MergeAll(base, init);
      MergeAllGet(base, init, k);
      AddAllGet(prev, last, k);
      var a, b, c := Get(base, k), Column(init, k), Get(last, k);
      assert Get(MergeAll(base, vs), k) == (a + b) + c;
    }
  }

  /** A key is present after the merge iff the base has it or some multimap gives it a value. */
  lemma {:induction false} MergeAllKeys(base: Values, vs: seq<Values>, k: string)
    ensures k in MergeAll(base, vs) <==> k in base || Column(vs, k) != []
  {
    if vs != [] {
      MergeAllKeys(base, vs[..|vs| - 1], k);
      AddAllGet(MergeAll(base, vs[..|vs| - 1]), vs[|vs| - 1], k);
    }
  }

  /** Merging a list in two parts is merging the first part, then the second. */
  lemma {:induction false} MergeAllAppend(base: Values, xs: seq<Values>, ys: seq<Values>)
    ensures MergeAll(base, xs + ys) == MergeAll(MergeAll(base, xs), ys)
  {
    if ys == [] {
      assert xs + ys == xs;
    } else {
      var init := ys[..|ys| - 1];
      assert (xs + ys)[..|xs + ys| - 1] == xs + init;
      MergeAllAppend(base, xs, init);
    }
  }

  /**
   * Values merged from an earlier prefix of the list survive as a prefix of
   * the final values under every key: a later multimap never replaces them.
   */
  lemma MergeKeepsEarlier(base: Values, vs: seq<Values>, i: nat, k: string)
    requires i <= |vs|
    ensures Get(MergeAll(base, vs[..i]), k) <= Get(MergeAll(base, vs), k)
  {
    assert vs == vs[..i] + vs[i..];
    MergeAllAppend(base, vs[..i], vs[i..]);
    MergeAllGet(MergeAll(base, vs[..i]), vs[i..], k);
  }

  // ---------------------------------------------------------------------
  // Steps of the loops that perform the merge
  // ---------------------------------------------------------------------

  /** Adding one more value of a run is one `Add`. */
  lemma AddValuesStep(m: Values, k: string, vs: seq<string>, j: nat)
    requires j < |vs|
    ensures AddValues(m, k, vs[..j + 1]) == AddValue(AddValues(m, k, vs[..j]), k, vs[j])
  {
    assert vs[..j + 1] == vs[..j] + [vs[j]];
    if j > 0 {
      var before := AddValues(m, k, vs[..j]);
      assert Get(before, k) == Get(m, k) + vs[..j];
      assert (Get(m, k) + vs[..j]) + [vs[j]] == Get(m, k) + vs[..j + 1];
      assert before[k := Get(before, k) + [vs[j]]] == m[k := Get(m, k) + vs[..j]][k := Get(m, k) + vs[..j + 1]];
      assert m[k := Get(m, k) + vs[..j]][k := Get(m, k) + vs[..j + 1]] == m[k := Get(m, k) + vs[..j + 1]];
    } else {
      assert vs[..j] == [] && vs[..j + 1] == [vs[j]];
    }
  }

  /** Merging a multimap with one more key adds that key's whole run of values. */
  lemma AddAllInsert(m: Values, r: Values, key: string, vs: seq<string>)
    requires key !in r
    ensures AddAll(m, r[key := vs]) == AddValues(AddAll(m, r), key, vs)
  {
    var lhs, rhs := AddAll(m, r[key := vs]), AddValues(AddAll(m, r), key, vs);
    if vs == [] {
      assert NonEmptyKeys(r[key := vs]) == NonEmptyKeys(r);
      assert lhs.Keys == rhs.Keys;
      forall k | k in lhs
        ensures lhs[k] == rhs[k]
      {
        AddAllGet(m, r[key := vs], k);
        AddAllGet(m, r, k);
      }
    } else {
      assert NonEmptyKeys(r[key := vs]) == NonEmptyKeys(r) + {key};
      assert lhs.Keys == rhs.Keys;
      forall k | k in lhs
        ensures lhs[k] == rhs[k]
      {
        AddAllGet(m, r[key := vs], k);
        AddAllGet(m, r, k);
        if k == key {
          assert Get(m, k) + [] == Get(m, k);
        }
      }
    }
  }

  /** Visiting one more key of `add` adds that key's whole run of values. */
  lemma AddAllStep(m: Values, add: Values, s: set<string>, key: string)
    requires key in add && key !in s
    ensures AddAll(m, Restrict(add, s + {key})) == AddValues(AddAll(m, Restrict(add, s)), key, add[key])
  {
    assert Restrict(add, s + {key}) == Restrict(add, s)[key := add[key]];
    AddAllInsert(m, Restrict(add, s), key, add[key]);
  }

  /**
   * Every value of `add` passed to `Add` on `m`, one key at a time and each
   * key's values in order, as the nested loops of addQueryStructs do; the
   * keys are visited in an arbitrary order, as Go's map iteration is.
   */
  method AddEach(m: Values, add: Values) returns (r: Values)
    ensures r == AddAll(m, add)
  {
    r := m;
    var keys := add.Keys;
    ghost var visited: set<string> := {};
    assert Restrict(add, visited) == map[];
    AddAllEmpty(m);
    while keys != {}
      invariant keys + visited == add.Keys && keys !! visited
      invariant r == AddAll(m, Restrict(add, visited))
      decreases keys
    {
      var key :| key in keys;
      var values := add[key];
      ghost var start := r;
      var j := 0;
      while j < |values|
        invariant 0 <= j <= |values|
        invariant r == AddValues(start, key, values[..j])
      {
        AddValuesStep(start, key, values, j);
        r := AddValue(r, key, values[j]);
        j := j + 1;
      }
      assert values[..j] == values;
      AddAllStep(m, add, visited, key);
      keys := keys - {key};
      visited := visited + {key};
    }
    assert visited == add.Keys;
    RestrictAll(add);
  }

  /** Restricting to every key changes nothing. */
  lemma RestrictAll(m: Values)
    ensures Restrict(m, m.Keys) == m
  {
  }

  /** Merging nothing changes nothing. */
  lemma AddAllEmpty(m: Values)
    ensures AddAll(m, map[]) == m
  {
    forall k | k in m
      ensures AddAll(m, map[])[k] == m[k]
    {
      AddAllGet(m, map[], k);
    }
  }
}
