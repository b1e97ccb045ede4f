/** The shared `AppProps` bag of `app-props.js` and its `setAppProps`. */
module AppProps {

  /** The bag after assigning the entries in order, the later entry of a
      repeated key winning, as repeated `AppProps[key] = value` does. */
  function Merged<V>(m: map<string, V>, entries: seq<(string, V)>): (r: map<string, V>)
    decreases |entries|
  {
    if entries == [] then m
    else Merged(m[entries[0].0 := entries[0].1], entries[1..])
  }

  /** The keys of an entry list. */
  function Keys<V>(entries: seq<(string, V)>): (ks: set<string>)
    ensures forall i :: 0 <= i < |entries| ==> entries[i].0 in ks
    ensures forall k :: k in ks ==> exists i :: 0 <= i < |entries| && entries[i].0 == k
  {
    set i | 0 <= i < |entries| :: entries[i].0
  }

  /** `Object.entries` never repeats a key. */
  predicate DistinctKeys<V>(entries: seq<(string, V)>) {
    forall i, j :: 0 <= i < j < |entries| ==> entries[i].0 != entries[j].0
  }

  /** Every own key of the argument ends up with the argument's value. */
  lemma {:induction false} MergedTakesNewValues<V>(m: map<string, V>, entries: seq<(string, V)>, i: nat)
    requires DistinctKeys(entries) && i < |entries|
    ensures entries[i].0 in Merged(m, entries)
    ensures Merged(m, entries)[entries[i].0] == entries[i].1
    decreases |entries|
  {
    if i == 0 {
      MergedKeepsOthers(m[entries[0].0 := entries[0].1], entries[1..], entries[0].0);
    } else {
      MergedTakesNewValues(m[entries[0].0 := entries[0].1], entries[1..], i - 1);
    }
  }

  /** Keys the argument does not mention keep their old presence and value. */
  lemma {:induction false} MergedKeepsOthers<V>(m: map<string, V>, entries: seq<(string, V)>, k: string)
    requires k !in Keys(entries)
    ensures (k in Merged(m, entries)) == (k in m)
    ensures k in m ==> Merged(m, entries)[k] == m[k]
    decreases |entries|
  {
    if entries != [] {
      assert Keys(entries[1..]) <= Keys(entries) by {
        forall x | x in Keys(entries[1..]) ensures x in Keys(entries) {
          var i :| 0 <= i < |entries[1..]| && entries[1..][i].0 == x;
          assert entries[i + 1].0 == x;
        }
      }
      MergedKeepsOthers(m[entries[0].0 := entries[0].1], entries[1..], k);
    }
  }

  /** The keys afterwards are the old keys and the argument's keys. */
  lemma {:induction false} MergedKeys<V>(m: map<string, V>, entries: seq<(string, V)>)
    ensures Merged(m, entries).Keys == m.Keys + Keys(entries)
    decreases |entries|
  {
    if entries != [] {
      MergedKeys(m[entries[0].0 := entries[0].1], entries[1..]);
      assert Keys(entries) == {entries[0].0} + Keys(entries[1..]) by {
        forall x | x in Keys(entries) ensures x in {entries[0].0} + Keys(entries[1..]) {
          var i :| 0 <= i < |entries| && entries[i].0 == x;
          if i > 0 { assert entries[1..][i - 1].0 == x; }
        }
      }
    }
  }

  /** Calling `setAppProps` twice with the same argument is the same as
      calling it once. */
  lemma {:induction false} MergedIdempotent<V>(m: map<string, V>, entries: seq<(string, V)>)
    requires DistinctKeys(entries)
    ensures Merged(Merged(m, entries), entries) == Merged(m, entries)
  {
    var once := Merged(m, entries);
    var twice := Merged(once, entries);
    MergedKeys(m, entries);
    MergedKeys(once, entries);
    forall k | k in twice.Keys
      ensures twice[k] == once[k]
    {
      if k in Keys(entries) {
        var i :| 0 <= i < |entries| && entries[i].0 == k;
        MergedTakesNewValues(m, entries, i);
        MergedTakesNewValues(once, entries, i);
      } else {
        MergedKeepsOthers(once, entries, k);
      }
    }
  }

  /** `setAppProps({})` changes nothing. */
  lemma EmptyMergeIsNoOp<V>(m: map<string, V>)
    ensures Merged(m, []) == m
  {
  }

  /** The process-wide property bag. */
  class AppPropsBag<V> {
    var props: map<string, V>

    constructor ()
      ensures props == map[]
    {
      props := map[];
    }

    /** `setAppProps`: a for-of loop over the entries of the argument that
        assigns each into the bag in place. */
    method SetAppProps(entries: seq<(string, V)>)
      modifies this
      ensures props == Merged(old(props), entries)
    {
      var i := 0;
      while i < |entries|
        invariant 0 <= i <= |entries|
        invariant Merged(props, entries[i..]) == Merged(old(props), entries)
      {
        var (key, value) := entries[i];
        assert entries[i..][1..] == entries[i + 1..];
        props := props[key := value];
        i := i + 1;
      }
    }
  }
}
