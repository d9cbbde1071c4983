/** Small helpers shared by every module: an Option type, `Vec::remove`
    and the "remember the last flagged index" scan that the editing passes
    of the user interface run over their rows. */
module Common {

  datatype Option<+T> = None | Some(value: T)

  /** `Vec::remove(i)`: element `i` is taken out, the others keep their order. */
  function RemoveAt<T>(s: seq<T>, i: nat): (r: seq<T>)
    requires i < |s|
    ensures |r| == |s| - 1
    ensures forall k :: 0 <= k < i ==> r[k] == s[k]
    ensures forall k :: i <= k < |r| ==> r[k] == s[k + 1]
    ensures multiset(r) + multiset{s[i]} == multiset(s)
  {
    assert s == s[..i] + [s[i]] + s[i + 1..];
    s[..i] + s[i + 1..]
  }

  /** Removing an index of the original rows commutes with a push at the end:
      the pushed row never shifts the index that was recorded before it. */
  lemma {:induction false} RemoveAtBeforePush<T>(s: seq<T>, x: T, i: nat)
    requires i < |s|
    ensures RemoveAt(s + [x], i) == RemoveAt(s, i) + [x]
  {
    var l, r := RemoveAt(s + [x], i), RemoveAt(s, i) + [x];
    assert |l| == |r|;
    forall k | 0 <= k < |l| ensures l[k] == r[k] {
      if k < i {
      } else if k < |s| - 1 {
      } else {
        assert l[k] == (s + [x])[k + 1];
      }
    }
  }

  /** The index a loop of the form
        `for (index, row) in rows.enumerate() { if flagged(row) { found = Some(index) } }`
      ends with: the last flagged position, or None when nothing is flagged. */
  function LastTrue(flags: seq<bool>): (r: Option<nat>)
    ensures r.None? <==> forall k :: 0 <= k < |flags| ==> !flags[k]
    ensures r.Some? ==> r.value < |flags| && flags[r.value]
    ensures r.Some? ==> forall k :: r.value < k < |flags| ==> !flags[k]
  {
    if flags == [] then None
    else if flags[|flags| - 1] then Some(|flags| - 1)
    else LastTrue(flags[..|flags| - 1])
  }

  /** The scan itself, as the user-interface loops run it. */
  method FindLastFlagged(flags: seq<bool>) returns (index: Option<nat>)
    ensures index == LastTrue(flags)
  {
    index := None;
    for i := 0 to |flags|
      invariant index == LastTrue(flags[..i])
    {
      assert flags[..i + 1][..i] == flags[..i];
      if flags[i] {
        index := Some(i);
      }
    }
    assert flags[..|flags|] == flags;
  }

  /** Removes the row at `index` when there is one; the shape of
      `if let Some(index) = index_to_remove { rows.remove(index) }`. */
  function RemoveIfSome<T>(s: seq<T>, index: Option<nat>): (r: seq<T>)
    requires index.Some? ==> index.value < |s|
    ensures index.None? ==> r == s
    ensures index.Some? ==> r == RemoveAt(s, index.value)
  {
    if index.Some? then RemoveAt(s, index.value) else s
  }
}
