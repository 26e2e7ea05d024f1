/**
 * The operations the editor store performs on a copy of the event's block
 * list (src/stores/editor-store.ts:162-206, 268-274): reorder by
 * drag-and-drop, toggle, variant change, and the enabled-block view sorted by
 * `order`.
 */
module EditorBlocks {
  import opened Types

  /** The list without its element at `i`, as `splice(i, 1)` leaves it. */
  function RemoveAt<T>(s: seq<T>, i: nat): (r: seq<T>)
    requires i < |s|
    ensures |r| == |s| - 1
    ensures forall j :: 0 <= j < i ==> r[j] == s[j]
    ensures forall j :: i <= j < |r| ==> r[j] == s[j + 1]
  {
    s[..i] + s[i + 1..]
  }

  /** The list with `x` inserted before position `i`, as `splice(i, 0, x)` leaves it. */
  function InsertAt<T>(s: seq<T>, i: nat, x: T): (r: seq<T>)
    requires i <= |s|
    ensures |r| == |s| + 1 && r[i] == x
    ensures forall j :: 0 <= j < i ==> r[j] == s[j]
    ensures forall j :: i < j < |r| ==> r[j] == s[j - 1]
  {
    s[..i] + [x] + s[i..]
  }

  /** Taking the element out of `from` and putting it back in at `to`. */
  function Move<T>(s: seq<T>, from: nat, to: nat): (r: seq<T>)
    requires from < |s| && to < |s|
    ensures |r| == |s|
    ensures r[to] == s[from]
    ensures RemoveAt(r, to) == RemoveAt(s, from)
    ensures multiset(r) == multiset(s)
  {
    var rest := RemoveAt(s, from);
    var r := InsertAt(rest, to, s[from]);
    InsertThenRemove(rest, to, s[from]);
    RemoveInsertSameMultiset(s, from, to);
    r
  }

  lemma InsertThenRemove<T>(s: seq<T>, i: nat, x: T)
    requires i <= |s|
    ensures RemoveAt(InsertAt(s, i, x), i) == s
  {
    var r := InsertAt(s, i, x);
    assert r[..i] == s[..i];
    assert r[i + 1..] == s[i..];
  }

  lemma RemoveInsertSameMultiset<T>(s: seq<T>, from: nat, to: nat)
    requires from < |s| && to < |s|
    ensures multiset(InsertAt(RemoveAt(s, from), to, s[from])) == multiset(s)
  {
    var rest := RemoveAt(s, from);
    assert s == s[..from] + [s[from]] + s[from + 1..];
    assert multiset(s) == multiset(rest) + multiset{s[from]};
    assert rest == rest[..to] + rest[to..];
  }

  /** Moving an element back where it came from gives the list back. */
  lemma MoveBack<T>(s: seq<T>, from: nat, to: nat)
    requires from < |s| && to < |s|
    ensures Move(Move(s, from, to), to, from) == s
  {
    var r := Move(s, from, to);
    var back := Move(r, to, from);
    assert RemoveAt(back, from) == RemoveAt(r, to) == RemoveAt(s, from);
    assert back[from] == s[from];
    assert forall j :: 0 <= j < |s| ==> back[j] == s[j] by {
      forall j | 0 <= j < |s| ensures back[j] == s[j] {
        if j < from {
          assert back[j] == RemoveAt(back, from)[j];
        } else if j > from {
          assert back[j] == RemoveAt(back, from)[j - 1];
        }
      }
    }
  }

  /** Every block's `order` becomes its index. */
  function Renumber(blocks: seq<BlockConfig>): (r: seq<BlockConfig>)
    ensures |r| == |blocks|
    ensures forall i :: 0 <= i < |r| ==> r[i] == blocks[i].(order := i)
  {
    seq(|blocks|, i requires 0 <= i < |blocks| => blocks[i].(order := i))
  }

  /**
   * `reorderBlocks(from, to)` on the block list: the block taken from `from`
   * lands at `to`, the others keep their relative order, and every block's
   * `order` equals its new index.
   */
  function Reorder(blocks: seq<BlockConfig>, from: nat, to: nat): (r: seq<BlockConfig>)
    requires from < |blocks| && to < |blocks|
    ensures |r| == |blocks|
    ensures r[to] == blocks[from].(order := to)
    ensures forall i :: 0 <= i < |r| ==> r[i].order == i
    ensures forall i :: 0 <= i < |r| - 1 ==>
      RemoveAt(r, to)[i] == RemoveAt(blocks, from)[i].(order := if i < to then i else i + 1)
  {
    var moved := Move(blocks, from, to);
    var r := Renumber(moved);
    assert forall i :: 0 <= i < |r| - 1 ==> RemoveAt(moved, to)[i] == RemoveAt(blocks, from)[i];
    r
  }

  /** `toggleBlock(i)`: only block `i` changes, and only its `enabled` flag, which flips. */
  function Toggle(blocks: seq<BlockConfig>, i: nat): (r: seq<BlockConfig>)
    requires i < |blocks|
    ensures |r| == |blocks|
    ensures r[i].enabled == !blocks[i].enabled
    ensures r[i] == blocks[i].(enabled := r[i].enabled)
    ensures forall j :: 0 <= j < |r| && j != i ==> r[j] == blocks[j]
  {
    blocks[i := blocks[i].(enabled := !blocks[i].enabled)]
  }

  /** Toggling the same block twice gives the list back. */
  lemma ToggleTwice(blocks: seq<BlockConfig>, i: nat)
    requires i < |blocks|
    ensures Toggle(Toggle(blocks, i), i) == blocks
  {
  }

  /** `setBlockVariant(i, v)`: only block `i` changes, and only its variant, which becomes `v` unchecked. */
  function SetVariant(blocks: seq<BlockConfig>, i: nat, v: string): (r: seq<BlockConfig>)
    requires i < |blocks|
    ensures |r| == |blocks|
    ensures r[i] == blocks[i].(variant := v)
    ensures forall j :: 0 <= j < |r| && j != i ==> r[j] == blocks[j]
  {
    blocks[i := blocks[i].(variant := v)]
  }

  // ----- The enabled-block view -----

  /** `blocks.filter(b => b.enabled)`. */
  function FilterEnabled(blocks: seq<BlockConfig>): (r: seq<BlockConfig>)
    ensures forall b :: b in r ==> b in blocks && b.enabled
    ensures |r| <= |blocks|
  {
    if |blocks| == 0 then []
    else if blocks[0].enabled then [blocks[0]] + FilterEnabled(blocks[1..])
    else FilterEnabled(blocks[1..])
  }

  /** The blocks whose `order` is `o`, in list order. */
  function WithOrder(blocks: seq<BlockConfig>, o: int): seq<BlockConfig>
  {
    if |blocks| == 0 then []
    else if blocks[0].order == o then [blocks[0]] + WithOrder(blocks[1..], o)
    else WithOrder(blocks[1..], o)
  }

  predicate SortedByOrder(blocks: seq<BlockConfig>)
  {
    forall i, j :: 0 <= i < j < |blocks| ==> blocks[i].order <= blocks[j].order
  }

  /** Placing `b` before the first block whose `order` is not smaller than its own. */
  function InsertByOrder(b: BlockConfig, sorted: seq<BlockConfig>): (r: seq<BlockConfig>)
    ensures multiset(r) == multiset(sorted) + multiset{b}
    ensures SortedByOrder(sorted) ==> SortedByOrder(r)
  {
    if |sorted| == 0 || b.order <= sorted[0].order then
      [b] + sorted
    else
      var rest := InsertByOrder(b, sorted[1..]);
      InsertStep(b, sorted, rest);
      [sorted[0]] + rest
  }

  /** The insertion's recursive step: keeping the head in front of the insertion into the tail. */
  lemma InsertStep(b: BlockConfig, sorted: seq<BlockConfig>, rest: seq<BlockConfig>)
    requires |sorted| > 0 && sorted[0].order < b.order
    requires multiset(rest) == multiset(sorted[1..]) + multiset{b}
    requires SortedByOrder(sorted[1..]) ==> SortedByOrder(rest)
    ensures multiset([sorted[0]] + rest) == multiset(sorted) + multiset{b}
    ensures SortedByOrder(sorted) ==> SortedByOrder([sorted[0]] + rest)
  {
    assert sorted == [sorted[0]] + sorted[1..];
    if SortedByOrder(sorted) {
      assert SortedByOrder(sorted[1..]);
      forall x | x in rest ensures sorted[0].order <= x.order {
        assert x in multiset(rest);
        assert x == b || x in multiset(sorted[1..]);
      }
      ConsKeepsSorted(sorted[0], rest);
    }
  }

  /** A block placed before a sorted list whose orders are all at least its own keeps it sorted. */
  lemma ConsKeepsSorted(x: BlockConfig, rest: seq<BlockConfig>)
    requires SortedByOrder(rest)
    requires forall b :: b in rest ==> x.order <= b.order
    ensures SortedByOrder([x] + rest)
  {
    var l := [x] + rest;
    forall i, j | 0 <= i < j < |l|
      ensures l[i].order <= l[j].order
    {
      assert l[j] == rest[j - 1];
      if i > 0 {
        assert l[i] == rest[i - 1];
      }
    }
  }

  lemma WithOrderCons(x: BlockConfig, t: seq<BlockConfig>, o: int)
    ensures WithOrder([x] + t, o) == if x.order == o then [x] + WithOrder(t, o) else WithOrder(t, o)
  {
    assert ([x] + t)[1..] == t;
  }

  /**
   * Inserting `b` skips only blocks with a smaller `order`, so among the
   * blocks of `b`'s own order it comes first, and the other orders are untouched.
   */
  lemma {:induction false} InsertByOrderStable(b: BlockConfig, sorted: seq<BlockConfig>, o: int)
    ensures WithOrder(InsertByOrder(b, sorted), o)
         == if b.order == o then [b] + WithOrder(sorted, o) else WithOrder(sorted, o)
  {
    if |sorted| == 0 || b.order <= sorted[0].order {
      WithOrderCons(b, sorted, o);
    } else {
      InsertByOrderStable(b, sorted[1..], o);
      WithOrderCons(sorted[0], InsertByOrder(b, sorted[1..]), o);
      WithOrderCons(sorted[0], sorted[1..], o);
      assert sorted == [sorted[0]] + sorted[1..];
    }
  }

  /** `.sort((a, b) => a.order - b.order)`, which is stable: a stable insertion sort. */
  function SortByOrder(blocks: seq<BlockConfig>): (r: seq<BlockConfig>)
    ensures SortedByOrder(r)
    ensures multiset(r) == multiset(blocks)
  {
    if |blocks| == 0 then []
    else
      assert blocks == [blocks[0]] + blocks[1..];
      InsertByOrder(blocks[0], SortByOrder(blocks[1..]))
  }

  /** The sort keeps, for every `order` value, the blocks of that order in their list order. */
  lemma {:induction false} SortByOrderStable(blocks: seq<BlockConfig>, o: int)
    ensures WithOrder(SortByOrder(blocks), o) == WithOrder(blocks, o)
  {
    if |blocks| > 0 {
      SortByOrderStable(blocks[1..], o);
      InsertByOrderStable(blocks[0], SortByOrder(blocks[1..]), o);
      WithOrderCons(blocks[0], blocks[1..], o);
      assert blocks == [blocks[0]] + blocks[1..];
    }
  }

  /**
   * `enabledBlocks()` for a loaded event: the enabled blocks ascending by
   * `order`, blocks with equal `order` kept in list order.
   */
  function EnabledBlocks(blocks: seq<BlockConfig>): (r: seq<BlockConfig>)
    ensures SortedByOrder(r)
    ensures multiset(r) == multiset(FilterEnabled(blocks))
    ensures forall b :: b in r <==> b in blocks && b.enabled
    ensures forall o :: WithOrder(r, o) == WithOrder(FilterEnabled(blocks), o)
  {
    var f := FilterEnabled(blocks);
    var r := SortByOrder(f);
    FilterEnabledExact(blocks);
    forall o ensures WithOrder(r, o) == WithOrder(f, o) {
      SortByOrderStable(f, o);
    }
    assert forall b :: b in r <==> b in multiset(r);
    assert forall b :: b in f <==> b in multiset(f);
    r
  }

  lemma {:induction false} FilterEnabledExact(blocks: seq<BlockConfig>)
    ensures forall b :: b in FilterEnabled(blocks) <==> b in blocks && b.enabled
  {
    if |blocks| > 0 {
      FilterEnabledExact(blocks[1..]);
      assert blocks == [blocks[0]] + blocks[1..];
    }
  }

  predicate StrictlyIncreasingOrder(blocks: seq<BlockConfig>)
  {
    forall i, j :: 0 <= i < j < |blocks| ==> blocks[i].order < blocks[j].order
  }

  /** Sorting a list whose orders already increase along it changes nothing. */
  lemma {:induction false} SortKeepsIncreasing(blocks: seq<BlockConfig>)
    requires StrictlyIncreasingOrder(blocks)
    ensures SortByOrder(blocks) == blocks
  {
    if |blocks| > 0 {
      SortKeepsIncreasing(blocks[1..]);
      assert SortByOrder(blocks[1..]) == blocks[1..];
    }
  }

  lemma {:induction false} FilterKeepsIncreasing(blocks: seq<BlockConfig>)
    requires StrictlyIncreasingOrder(blocks)
    ensures StrictlyIncreasingOrder(FilterEnabled(blocks))
    ensures forall b :: b in FilterEnabled(blocks) ==> b in blocks
  {
    if |blocks| > 0 {
      FilterKeepsIncreasing(blocks[1..]);
      var rest := FilterEnabled(blocks[1..]);
      if blocks[0].enabled {
        assert FilterEnabled(blocks) == [blocks[0]] + rest;
        assert forall b :: b in rest ==> blocks[0].order < b.order by {
          forall b | b in rest ensures blocks[0].order < b.order {
            var j :| 0 <= j < |blocks[1..]| && blocks[1..][j] == b;
            assert blocks[j + 1] == b;
          }
        }
        ConsKeepsIncreasing(blocks[0], rest);
      } else {
        assert FilterEnabled(blocks) == rest;
      }
    }
  }

  /** A block placed before a strictly increasing list whose orders all exceed its own keeps it strictly increasing. */
  lemma ConsKeepsIncreasing(x: BlockConfig, rest: seq<BlockConfig>)
    requires StrictlyIncreasingOrder(rest)
    requires forall b :: b in rest ==> x.order < b.order
    ensures StrictlyIncreasingOrder([x] + rest)
  {
    var l := [x] + rest;
    forall i, j | 0 <= i < j < |l|
      ensures l[i].order < l[j].order
    {
      assert l[j] == rest[j - 1];
      if i > 0 {
        assert l[i] == rest[i - 1];
      } else {
        assert rest[j - 1] in rest;
      }
    }
  }

  /** After a reorder the orders are 0, 1, 2, ..., so the sort does nothing: the enabled view is the filtered list. */
  lemma EnabledAfterReorderIsFiltered(blocks: seq<BlockConfig>, from: nat, to: nat)
    requires from < |blocks| && to < |blocks|
    ensures EnabledBlocks(Reorder(blocks, from, to)) == FilterEnabled(Reorder(blocks, from, to))
  {
    var r := Reorder(blocks, from, to);
    assert StrictlyIncreasingOrder(r);
    FilterKeepsIncreasing(r);
    SortKeepsIncreasing(FilterEnabled(r));
  }
}
