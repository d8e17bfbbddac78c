/**
  The dictionary merge operators `+` and `+=`: a right-biased union in which
  every entry of the right-hand dictionary overwrites or adds to the left.
 */
module DictionaryExtensions {

  /** The merged dictionary: the keys of both sides, with the right side's
      value wherever the right side has the key. */
  function Merge<K, V>(left: map<K, V>, right: map<K, V>): (r: map<K, V>)
    ensures r.Keys == left.Keys + right.Keys
    ensures forall k :: k in right ==> r[k] == right[k]
    ensures forall k :: k in left && k !in right ==> r[k] == left[k]
  {
    map k | k in left.Keys + right.Keys :: if k in right then right[k] else left[k]
  }

  /** `left += right`: for each entry of `right`, in whatever order the
      dictionary yields them, `updateValue(value, forKey: key)` on `left`. */
  method MergeAssign<K(==), V>(left: map<K, V>, right: map<K, V>) returns (merged: map<K, V>)
    ensures merged.Keys == left.Keys + right.Keys
    ensures forall k :: k in right ==> merged[k] == right[k]
    ensures forall k :: k in left && k !in right ==> merged[k] == left[k]
    ensures merged == Merge(left, right)
  {
    merged := left;
    var pending := right.Keys;
    while pending != {}
      invariant pending <= right.Keys
      invariant merged.Keys == left.Keys + (right.Keys - pending)
      invariant forall k :: k in right && k !in pending ==> merged[k] == right[k]
      invariant forall k :: k in left && (k !in right || k in pending) ==> merged[k] == left[k]
      decreases pending
    {
      var key :| key in pending;
      merged := merged[key := right[key]];
      pending := pending - {key};
    }
  }

  /** `left + right`: a copy of `left` updated in place with `+=`. The left
      operand is a value and is left as it was. */
  method Plus<K(==), V>(left: map<K, V>, right: map<K, V>) returns (result: map<K, V>)
    ensures result == Merge(left, right)
  {
    result := left;
    result := MergeAssign(result, right);
  }

  /** The `+=` loop as a fold of `updateValue` over a sequence of entries. */
  function UpdateAll<K, V>(m: map<K, V>, entries: seq<(K, V)>): (r: map<K, V>)
    ensures r.Keys == m.Keys + set i | 0 <= i < |entries| :: entries[i].0
    decreases |entries|
  {
    if |entries| == 0 then m
    else UpdateAll(m[entries[0].0 := entries[0].1], entries[1..])
  }

  /** `entries` lists entries of `right`: each pair is a key of `right` with
      its value. Repeats are allowed. */
  ghost predicate EntriesOf<K, V>(entries: seq<(K, V)>, right: map<K, V>) {
    forall i :: 0 <= i < |entries| ==> entries[i].0 in right && right[entries[i].0] == entries[i].1
  }

  /** The keys `entries` touches. */
  ghost function KeysOf<K, V>(entries: seq<(K, V)>): set<K> {
    set i | 0 <= i < |entries| :: entries[i].0
  }

  /** Folding `updateValue` over entries of `right` merges `m` with the part
      of `right` those entries touch, whatever their order. */
  lemma {:induction false} UpdateAllMergesTouched<K, V>(m: map<K, V>, entries: seq<(K, V)>, right: map<K, V>)
    requires EntriesOf(entries, right)
    ensures UpdateAll(m, entries) == Merge(m, map k | k in KeysOf(entries) :: right[k])
    decreases |entries|
  {
    if |entries| == 0 {
      assert KeysOf(entries) == {};
    } else {
      var (k0, v0) := entries[0];
      var rest := entries[1..];
      assert EntriesOf(rest, right) by {
        forall i | 0 <= i < |rest| ensures rest[i].0 in right && right[rest[i].0] == rest[i].1 {
          assert rest[i] == entries[i + 1];
        }
      }
      UpdateAllMergesTouched(m[k0 := v0], rest, right);
      assert KeysOf(entries) == {k0} + KeysOf(rest) by {
        forall k | k in KeysOf(entries) ensures k in {k0} + KeysOf(rest) {
          var i :| 0 <= i < |entries| && entries[i].0 == k;
          if i > 0 { assert rest[i - 1] == entries[i]; }
        }
        forall k | k in KeysOf(rest) ensures k in KeysOf(entries) {
          var i :| 0 <= i < |rest| && rest[i].0 == k;
          assert entries[i + 1] == rest[i];
        }
      }
    }
  }

  /** Any enumeration of all of `right`'s entries makes the `+=` loop compute
      the merge, so the iteration order of the dictionary does not matter. */
  lemma UpdateAllIsMerge<K, V>(m: map<K, V>, entries: seq<(K, V)>, right: map<K, V>)
    requires EntriesOf(entries, right)
    requires forall k :: k in right ==> exists i :: 0 <= i < |entries| && entries[i].0 == k
    ensures UpdateAll(m, entries) == Merge(m, right)
  {
    UpdateAllMergesTouched(m, entries, right);
    assert KeysOf(entries) == right.Keys;
    assert (map k | k in KeysOf(entries) :: right[k]) == right;
  }

  /** Merging with an empty right-hand side returns the left unchanged. */
  lemma MergeEmptyRight<K, V>(left: map<K, V>)
    ensures Merge(left, map[]) == left
  {
  }

  /** The example of the documentation comment. */
  lemma DocumentedExample()
    ensures Merge(map["a" := "foo"], map["a" := "fee", "b" := "foo"]) == map["a" := "fee", "b" := "foo"]
  {
  }

  /** Applying the same right-hand side twice is the same as applying it once. */
  lemma MergeIdempotentRight<K, V>(left: map<K, V>, right: map<K, V>)
    ensures Merge(Merge(left, right), right) == Merge(left, right)
  {
  }

  /** Merges can be regrouped: `(a + b) + c == a + (b + c)`. */
  lemma MergeAssociative<K, V>(a: map<K, V>, b: map<K, V>, c: map<K, V>)
    ensures Merge(Merge(a, b), c) == Merge(a, Merge(b, c))
  {
  }
}
