/**
 * The header map of `(*RestClient).New` with Go's slice semantics made
 * explicit. An `http.Header` maps each key to a `[]string`, and a slice is
 * a window onto a backing array that copies of the slice share; `append`
 * writes into that array in place while it has spare capacity.
 *
 * `New` copies the map entry by entry, so parent and clone share every
 * backing array, and an `Add` on one of them can overwrite a value the
 * other added: `SharedCloneLosesChildAdd` shows an input where it does.
 * `CloneDeep` gives every value list an array of its own, the behaviour
 * the rest of the model assumes (its header values are sequences, copied
 * by value).
 */
module SliceHeader {

  /** A Go `[]string`: the first `len` cells of `backing`, whose length is the capacity. */
  datatype Slice = Slice(backing: array<string>, len: nat)

  ghost predicate Valid(s: Slice)
  {
    s.len <= s.backing.Length
  }

  /** The values a slice holds. */
  function Contents(s: Slice): seq<string>
    reads s.backing
    requires Valid(s)
  {
    s.backing[..s.len]
  }

  /**
   * The capacity `append` allocates for a full slice of capacity `cap`:
   * one cell for an empty slice, twice as many otherwise (Go's rule for
   * short slices of strings).
   */
  function Grown(cap: nat): nat
  {
    if cap == 0 then 1 else 2 * cap
  }

  /** `append(s, v)`: in place while there is spare capacity, otherwise into a new, larger array. */
  method Append(s: Slice, v: string) returns (t: Slice)
    requires Valid(s)
    modifies s.backing
    ensures Valid(t) && t.len == s.len + 1
    ensures Contents(t) == old(Contents(s)) + [v]
    ensures s.len < s.backing.Length ==> t.backing == s.backing
    ensures s.len == s.backing.Length ==>
      fresh(t.backing) && t.backing.Length == Grown(s.len) && unchanged(s.backing)
  {
    if s.len < s.backing.Length {
      s.backing[s.len] := v;
      t := Slice(s.backing, s.len + 1);
    } else {
      var a := new string[Grown(s.len)];
      forall i | 0 <= i < s.len {
        a[i] := s.backing[i];
      }
      a[s.len] := v;
      t := Slice(a, s.len + 1);
    }
  }

  /** An `http.Header` whose keys are already canonical. */
  type Header = map<string, Slice>

  ghost predicate ValidHeader(h: Header)
  {
    forall k | k in h :: Valid(h[k])
  }

  /** The arrays behind a header's values. */
  ghost function Arrays(h: Header): set<array<string>>
  {
    set k | k in h :: h[k].backing
  }

  /** `h.Add(key, v)`: `h[key] = append(h[key], v)`, where a missing key reads as the nil slice. */
  method Add(h: Header, key: string, v: string) returns (r: Header)
    requires ValidHeader(h)
    modifies if key in h then {h[key].backing} else {}
    ensures ValidHeader(r) && r.Keys == h.Keys + {key}
    ensures forall k | k in h && k != key :: r[k] == h[k]
    ensures forall k | k in h && k != key && (key in h ==> h[k].backing != h[key].backing) ::
      Contents(r[k]) == old(Contents(h[k]))
    ensures Contents(r[key]) == (if key in h then old(Contents(h[key])) else []) + [v]
    ensures key in h && h[key].len < h[key].backing.Length ==> r[key].backing == h[key].backing
    ensures key in h && h[key].len == h[key].backing.Length ==>
      fresh(r[key].backing) && r[key].backing.Length == Grown(h[key].len)
    ensures key !in h ==> fresh(r[key].backing) && r[key].backing.Length == 1
  {
    var s: Slice;
    if key in h {
      s := h[key];
    } else {
      var empty := new string[0];
      s := Slice(empty, 0);
    }
    var t := Append(s, v);
    r := h[key := t];
  }

  /** The copy `(*RestClient).New` makes: `headerCopy[k] = v` for every entry. */
  method CloneShared(h: Header) returns (c: Header)
    ensures c.Keys == h.Keys
    ensures forall k | k in h :: c[k].backing == h[k].backing && c[k].len == h[k].len
  {
    c := map[];
    var keys := h.Keys;
    while keys != {}
      invariant keys <= h.Keys
      invariant c == map k | k in h && k !in keys :: h[k]
      decreases keys
    {
      var k :| k in keys;
      c := c[k := h[k]];
      keys := keys - {k};
    }
  }

  /** The copy `New` evidently intends: every value list copied into an array of its own. */
  method CloneDeep(h: Header) returns (c: Header)
    requires ValidHeader(h)
    ensures ValidHeader(c) && c.Keys == h.Keys
    ensures forall k | k in h :: Contents(c[k]) == Contents(h[k]) && fresh(c[k].backing)
    ensures forall k, j | k in c && j in c && k != j :: c[k].backing != c[j].backing
  {
    c := map[];
    var keys := h.Keys;
    while keys != {}
      invariant keys <= h.Keys
      invariant ValidHeader(c) && c.Keys == h.Keys - keys
      invariant forall k | k in c :: Contents(c[k]) == Contents(h[k]) && fresh(c[k].backing)
      invariant forall k, j | k in c && j in c && k != j :: c[k].backing != c[j].backing
      decreases keys
    {
      var k :| k in keys;
      var a := new string[h[k].len];
      forall i | 0 <= i < h[k].len {
        a[i] := h[k].backing[i];
      }
      c := c[k := Slice(a, h[k].len)];
      keys := keys - {k};
    }
  }

  /** A header whose key "X" holds three values added one by one: length 3, capacity 4. */
  method ThreeValues() returns (h: Header)
    ensures ValidHeader(h) && h.Keys == {"X"}
    ensures Contents(h["X"]) == ["1", "2", "3"]
    ensures h["X"].len == 3 && h["X"].backing.Length == 4
    ensures fresh(h["X"].backing)
  {
    h := map[];
    h := Add(h, "X", "1");
    h := Add(h, "X", "2");
    h := Add(h, "X", "3");
  }

  /**
   * As written: the parent adds three values under "X", is cloned, the
   * clone adds "c" and then the parent adds "p". Both appends write the
   * fourth cell of the one shared array, so the clone's value list ends
   * with the parent's "p" and its own "c" is lost.
   */
  method SharedCloneLosesChildAdd() returns (parent: seq<string>, child: seq<string>)
    ensures parent == ["1", "2", "3", "p"]
    ensures child == ["1", "2", "3", "p"]
  {
    var h := ThreeValues();
    var c := CloneShared(h);
    c := Add(c, "X", "c");
    h := Add(h, "X", "p");
    parent := Contents(h["X"]);
    child := Contents(c["X"]);
  }

  /** The same steps with the copy `New` intends: each side keeps its own value. */
  method DeepCloneKeepsChildAdd() returns (parent: seq<string>, child: seq<string>)
    ensures parent == ["1", "2", "3", "p"]
    ensures child == ["1", "2", "3", "c"]
  {
    var h := ThreeValues();
    var c := CloneDeep(h);
    c := Add(c, "X", "c");
    h := Add(h, "X", "p");
    parent := Contents(h["X"]);
    child := Contents(c["X"]);
  }

  /** An `Add` on a header changes no value of a header whose arrays it does not share. */
  method AddLeavesOther(h: Header, other: Header, key: string, v: string) returns (r: Header)
    requires ValidHeader(h) && ValidHeader(other)
    requires Arrays(h) !! Arrays(other)
    modifies Arrays(h)
    ensures forall k | k in other :: Contents(other[k]) == old(Contents(other[k]))
    ensures ValidHeader(r) && r.Keys == h.Keys + {key}
    ensures Contents(r[key]) == (if key in h then old(Contents(h[key])) else []) + [v]
  {
    assert key in h ==> h[key].backing in Arrays(h);
    r := Add(h, key, v);
  }

  /** The intended copy of `h`, to which the clone then adds `w` under `key`; `h` itself is untouched. */
  method CloneDeepThenAdd(h: Header, key: string, w: string) returns (child: Header)
    requires ValidHeader(h)
    ensures ValidHeader(child) && child.Keys == h.Keys + {key}
    ensures forall k | k in child :: fresh(child[k].backing)
    ensures Contents(child[key]) == (if key in h then Contents(h[key]) else []) + [w]
    ensures forall k | k in h && k != key :: Contents(child[k]) == Contents(h[k])
  {
    var copy := CloneDeep(h);
    child := Add(copy, key, w);
  }

  /**
   * With the intended copy, clone and parent are independent for every
   * header: the clone adds `w` under `key` and then the parent adds `v` under
   * the same key, the order in which the shared copy loses the clone's value;
   * each side ends with the values at cloning time followed by its own value.
   */
  method DeepCloneIsIndependent(h: Header, key: string, v: string, w: string) returns (parent: Header, child: Header)
    requires ValidHeader(h)
    modifies Arrays(h)
    ensures ValidHeader(child) && ValidHeader(parent)
    ensures child.Keys == h.Keys + {key} && parent.Keys == h.Keys + {key}
    ensures Contents(child[key]) == old(if key in h then Contents(h[key]) else []) + [w]
    ensures Contents(parent[key]) == old(if key in h then Contents(h[key]) else []) + [v]
    ensures forall k | k in h && k != key :: Contents(child[k]) == old(Contents(h[k]))
  {
    child := CloneDeepThenAdd(h, key, w);
    assert Arrays(h) !! Arrays(child);
    parent := AddLeavesOther(h, child, key, v);
  }
}
