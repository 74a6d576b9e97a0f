/**
 * The shape shared by every list the prediction handler builds with a row of
 * `if condition: xs.append(item)` statements: the items whose condition holds,
 * in the order the conditions are checked, followed by a single default item
 * when nothing was appended.
 */
module Selection {

  /** One conditional append: `[item]` when the condition holds, otherwise nothing. */
  function When<T>(condition: bool, item: T): seq<T> {
    if condition then [item] else []
  }

  /** The items among the first `k` whose flag is set, in flag order. */
  function SelectUpTo<T>(flags: seq<bool>, items: seq<T>, k: nat): seq<T>
    requires |flags| == |items| && k <= |flags|
  {
    if k == 0 then [] else SelectUpTo(flags, items, k - 1) + When(flags[k - 1], items[k - 1])
  }

  /** The items whose flag is set, in flag order. */
  function Select<T>(flags: seq<bool>, items: seq<T>): seq<T>
    requires |flags| == |items|
  {
    SelectUpTo(flags, items, |flags|)
  }

  /** The number of flags among the first `k` that are set. */
  function CountUpTo(flags: seq<bool>, k: nat): nat
    requires k <= |flags|
  {
    if k == 0 then 0 else CountUpTo(flags, k - 1) + (if flags[k - 1] then 1 else 0)
  }

  function Count(flags: seq<bool>): nat {
    CountUpTo(flags, |flags|)
  }

  /** `xs`, or the one-element list `[d]` when `xs` is empty. */
  function WithDefault<T>(xs: seq<T>, d: T): (r: seq<T>)
    ensures r != []
    ensures xs != [] ==> r == xs
    ensures xs == [] ==> r == [d]
  {
    if xs == [] then [d] else xs
  }

  /** At most `k` of the first `k` flags are set, and none is set exactly when the count is 0. */
  lemma {:induction false} CountBounds(flags: seq<bool>, k: nat)
    requires k <= |flags|
    ensures CountUpTo(flags, k) <= k
    ensures CountUpTo(flags, k) == 0 <==> forall i :: 0 <= i < k ==> !flags[i]
  {
    if k > 0 {
      CountBounds(flags, k - 1);
    }
  }

  /** The count reaches its bound exactly when every flag is set. */
  lemma {:induction false} CountFull(flags: seq<bool>, k: nat)
    requires k <= |flags|
    ensures CountUpTo(flags, k) == k <==> forall i :: 0 <= i < k ==> flags[i]
  {
    if k > 0 {
      CountFull(flags, k - 1);
      CountBounds(flags, k - 1);
    }
  }

  /** One item per set flag. */
  lemma {:induction false} SelectLength<T>(flags: seq<bool>, items: seq<T>, k: nat)
    requires |flags| == |items| && k <= |flags|
    ensures |SelectUpTo(flags, items, k)| == CountUpTo(flags, k)
  {
    if k > 0 {
      SelectLength(flags, items, k - 1);
    }
  }

  /** An item is selected exactly when some set flag stands beside it. */
  lemma {:induction false} SelectMember<T>(flags: seq<bool>, items: seq<T>, k: nat, x: T)
    requires |flags| == |items| && k <= |flags|
    ensures x in SelectUpTo(flags, items, k) <==> exists i :: 0 <= i < k && flags[i] && items[i] == x
  {
    if k > 0 {
      SelectMember(flags, items, k - 1, x);
      if flags[k - 1] && items[k - 1] == x {
        assert x in SelectUpTo(flags, items, k);
      }
    }
  }

  /**
   * Selected items keep the order of their flags: when flags `i < j` are both
   * set, the item at `i` is emitted before the item at `j`.
   */
  lemma {:induction false} SelectOrder<T>(flags: seq<bool>, items: seq<T>, k: nat, i: nat, j: nat)
    requires |flags| == |items| && k <= |flags|
    requires i < j < k && flags[i] && flags[j]
    ensures exists p, q ::
              0 <= p < q < |SelectUpTo(flags, items, k)| &&
              SelectUpTo(flags, items, k)[p] == items[i] && SelectUpTo(flags, items, k)[q] == items[j]
  {
    var prev := SelectUpTo(flags, items, k - 1);
    var r := SelectUpTo(flags, items, k);
    if j == k - 1 {
      SelectMember(flags, items, k - 1, items[i]);
      var p :| 0 <= p < |prev| && prev[p] == items[i];
      assert r == prev + [items[j]];
      assert r[p] == items[i] && r[|prev|] == items[j];
    } else {
      SelectOrder(flags, items, k - 1, i, j);
      var p, q :| 0 <= p < q < |prev| && prev[p] == items[i] && prev[q] == items[j];
      assert r[p] == items[i] && r[q] == items[j];
    }
  }
}
