/** The effect of MongoDB's array update operators on one string-array
    field, as the plugin uses them: `$addToSet` with `$each`, `$push` with
    `$each`, and `$set` of the whole array. */
module ArrayOps {

  /** No element occurs twice. */
  ghost predicate Distinct(s: seq<string>)
  {
    forall i, j :: 0 <= i < j < |s| ==> s[i] != s[j]
  }

  /** `$addToSet: {f: {$each: items}}`: the items are taken in order and each
      one is appended unless the array already holds it. Existing elements,
      duplicates included, are left as they are. */
  function AddToSetEach(arr: seq<string>, items: seq<string>): (r: seq<string>)
    ensures |arr| <= |r| <= |arr| + |items|
    ensures r[..|arr|] == arr
    ensures forall x :: x in r <==> x in arr || x in items
    decreases |items|
  {
    if items == [] then arr
    else
      var k := |items| - 1;
      var prev := AddToSetEach(arr, items[..k]);
      assert items == items[..k] + [items[k]];
      if items[k] in prev then prev else prev + [items[k]]
  }

  /** `$push: {f: {$each: items}}`: every item is appended, in order. */
  function PushEach(arr: seq<string>, items: seq<string>): (r: seq<string>)
    ensures |r| == |arr| + |items|
    ensures r[..|arr|] == arr && r[|arr|..] == items
  {
    arr + items
  }

  /** Reference definition of what `$addToSet` appends: the items, in order,
      that are not in `arr` and do not occur earlier in `items`. */
  function Fresh(arr: seq<string>, items: seq<string>): (r: seq<string>)
    decreases |items|
  {
    if items == [] then []
    else
      var k := |items| - 1;
      Fresh(arr, items[..k]) + (if items[k] in arr || items[k] in items[..k] then [] else [items[k]])
  }

  /** The unique add keeps the old array as a prefix and appends exactly the
      fresh items. */
  lemma {:induction false} AddToSetEachAppendsFresh(arr: seq<string>, items: seq<string>)
    ensures AddToSetEach(arr, items) == arr + Fresh(arr, items)
    decreases |items|
  {
    if items != [] {
      var k := |items| - 1;
      AddToSetEachAppendsFresh(arr, items[..k]);
      assert items == items[..k] + [items[k]];
    }
  }

  /** What `Fresh` picks: items only, none already in `arr`, none twice, and
      every item that is not in `arr` is picked. */
  lemma {:induction false} FreshIsNewAndDistinct(arr: seq<string>, items: seq<string>)
    ensures forall x :: x in Fresh(arr, items) <==> x in items && x !in arr
    ensures Distinct(Fresh(arr, items))
    decreases |items|
  {
    if items != [] {
      var k := |items| - 1;
      FreshIsNewAndDistinct(arr, items[..k]);
      assert items == items[..k] + [items[k]];
      var prev := Fresh(arr, items[..k]);
      if !(items[k] in arr || items[k] in items[..k]) {
        assert items[k] !in prev;
        var r := prev + [items[k]];
        forall i, j | 0 <= i < j < |r| ensures r[i] != r[j] {
          if j == |prev| {
            assert r[i] in prev;
          }
        }
      }
    }
  }

  /** Adding to a duplicate-free array with `$addToSet` leaves it duplicate-free. */
  lemma AddToSetEachKeepsDistinct(arr: seq<string>, items: seq<string>)
    requires Distinct(arr)
    ensures Distinct(AddToSetEach(arr, items))
  {
  }

  /** `$addToSet` of items that are all present already changes nothing. */
  lemma AddToSetEachPresentUnchanged(arr: seq<string>, items: seq<string>)
    requires forall x :: x in items ==> x in arr
    ensures AddToSetEach(arr, items) == arr
  {
  }

  /** Repeating a `$addToSet` with the same items changes nothing. */
  lemma AddToSetEachIdempotent(arr: seq<string>, items: seq<string>)
    ensures AddToSetEach(AddToSetEach(arr, items), items) == AddToSetEach(arr, items)
  {
    AddToSetEachPresentUnchanged(AddToSetEach(arr, items), items);
  }

  /** An element already present is not added again by `$addToSet`, but is by `$push`. */
  lemma AddingPresentElement(arr: seq<string>, x: string)
    requires x in arr
    ensures AddToSetEach(arr, [x]) == arr
    ensures PushEach(arr, [x]) == arr + [x] && |PushEach(arr, [x])| == |arr| + 1
  {
  }
}
