/**
 * The array utilities of the relay: `Array.prototype.indexOf` and the
 * `removeElem` helper built on it, over the list of online uids.
 */
module Lists {

  /** No value occurs twice. */
  predicate NoDup<T(==)>(a: seq<T>)
  {
    forall i, j :: 0 <= i < j < |a| ==> a[i] != a[j]
  }

  /** Index of the first occurrence of `v`, or -1 when there is none. */
  function IndexOf<T(==)>(a: seq<T>, v: T): (i: int)
    ensures -1 <= i < |a|
    ensures i == -1 <==> v !in a
    ensures 0 <= i ==> a[i] == v && v !in a[..i]
  {
    if a == [] then -1
    else if a[0] == v then 0
    else
      var j := IndexOf(a[1..], v);
      if j == -1 then -1
      else
        assert a[..j + 1] == [a[0]] + a[1..][..j];
        j + 1
  }

  /**
   * Removes the first occurrence of `value` (a `splice` of one element at
   * `indexOf`); leaves `arr` as it is when `value` does not occur.
   */
  function RemoveElem<T(==)>(arr: seq<T>, value: T): (r: seq<T>)
    ensures value !in arr ==> r == arr
    ensures value in arr ==> |r| == |arr| - 1
    ensures value in arr ==>
      exists i :: 0 <= i < |arr| && arr[i] == value && value !in arr[..i]
               && r == arr[..i] + arr[i + 1..]
    ensures multiset(r) == multiset(arr) - multiset{value}
  {
    var index := IndexOf(arr, value);
    if index > -1 then
      assert arr == arr[..index] + [arr[index]] + arr[index + 1..];
      arr[..index] + arr[index + 1..]
    else
      arr
  }

  /**
   * On a list without duplicates, removal takes out exactly `value` and
   * keeps the list free of duplicates.
   */
  lemma RemoveElemNoDup<T>(arr: seq<T>, value: T)
    requires NoDup(arr)
    ensures NoDup(RemoveElem(arr, value))
    ensures forall x :: x in RemoveElem(arr, value) <==> x in arr && x != value
  {
    if value in arr {
      var i := IndexOf(arr, value);
      assert RemoveElem(arr, value) == arr[..i] + arr[i + 1..];
      DropAtNoDup(arr, i);
    }
  }

  /** Dropping the element at index `i` from a list without duplicates. */
  lemma DropAtNoDup<T>(arr: seq<T>, i: int)
    requires NoDup(arr) && 0 <= i < |arr|
    ensures NoDup(arr[..i] + arr[i + 1..])
    ensures forall x :: x in arr[..i] + arr[i + 1..] <==> x in arr && x != arr[i]
  {
    var r := arr[..i] + arr[i + 1..];
    assert forall k :: 0 <= k < i ==> r[k] == arr[k];
    assert forall k :: i <= k < |r| ==> r[k] == arr[k + 1];
    forall a, b | 0 <= a < b < |r| ensures r[a] != r[b] {
      var a' := if a < i then a else a + 1;
      var b' := if b < i then b else b + 1;
      assert r[a] == arr[a'] && r[b] == arr[b'] && a' < b';
    }
    forall x | x in arr && x != arr[i] ensures x in r {
      var k :| 0 <= k < |arr| && arr[k] == x;
      assert r[if k < i then k else k - 1] == x;
    }
    forall x | x in r ensures x in arr && x != arr[i] {
      var k :| 0 <= k < |r| && r[k] == x;
      assert arr[if k < i then k else k + 1] == x;
    }
  }
}
