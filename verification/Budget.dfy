/**
 The responder's size bound on a decoded request: an explicit-stack walk that
 stops as soon as the budget is spent, against the recursive cost of the tree.
*/
module Budget {

  type Bytes = seq<bv8>

  datatype Json =
    | Null
    | Bool(b: bool)
    | Number(n: int)
    | Str(bytes: Bytes)
    | Arr(items: seq<Json>)
    | Obj(entries: seq<Entry>)

  datatype Entry = Entry(key: Bytes, value: Json)

  /** What one node costs. */
  const NODE := 32

  const USIZE_MAX := 0xFFFF_FFFF_FFFF_FFFF

  /** The cost of a tree: 32 per node, and strings and keys their length. */
  function Cost(v: Json): nat
    decreases v, 2
  {
    NODE + Inner(v)
  }

  /** All of it but the node itself. */
  function Inner(v: Json): nat
    decreases v, 1
  {
    match v
    case Str(bytes) => |bytes|
    case Arr(items) => ItemsCost(items)
    case Obj(entries) => EntriesCost(entries)
    case _ => 0
  }

  function ItemsCost(items: seq<Json>): nat
    decreases items, 0
  {
    if items == [] then 0 else Cost(items[0]) + ItemsCost(items[1..])
  }

  function EntriesCost(entries: seq<Entry>): nat
    decreases entries, 0
  {
    if entries == [] then 0 else |entries[0].key| + Cost(entries[0].value) + EntriesCost(entries[1..])
  }

  /** What the nodes on the stack still have to be charged. */
  function Pending(stack: seq<Json>): nat {
    if stack == [] then 0 else Pending(stack[..|stack| - 1]) + Inner(stack[|stack| - 1])
  }

  lemma {:induction false} PendingItems(stack: seq<Json>, items: seq<Json>)
    ensures Pending(stack + items) + NODE * |items| == Pending(stack) + ItemsCost(items)
    decreases |items|
  {
    if items == [] {
      assert stack + items == stack;
    } else {
      var more := stack + [items[0]];
      assert stack + items == more + items[1..];
      assert more[..|more| - 1] == stack;
      PendingItems(more, items[1..]);
    }
  }

  function SaturatingMul(a: nat, b: nat): nat {
    if a * b > USIZE_MAX then USIZE_MAX else a * b
  }

  /** `checked_sub`: charge `n` if that much is left. */
  function Charge(left: nat, n: nat): (bool, nat) {
    if n <= left then (true, left - n) else (false, left)
  }

  /**
   Says whether the tree costs at most the budget, having put at most
   budget/32 nodes on the stack, however large the tree is.
  */
  method WithinBudget(v: Json, budget: nat) returns (ok: bool, pushed: nat)
    requires budget <= USIZE_MAX
    ensures ok <==> Cost(v) <= budget
    ensures NODE * pushed <= budget
  {
    pushed := 0;
    var (fits, left) := Charge(budget, NODE);
    if !fits {
      return false, 0;
    }
    var stack := [v];
    pushed := 1;
    assert stack[..0] == [];
    while stack != []
      invariant 0 <= left && left + NODE * pushed <= budget
      invariant budget - left + Pending(stack) == Cost(v)
      decreases Pending(stack) + NODE * |stack|
    {
      var top := stack[|stack| - 1];
      stack := stack[..|stack| - 1];
      match top {
        case Str(bytes) =>
          fits, left := Charge(left, |bytes|).0, Charge(left, |bytes|).1;
          if !fits {
            return false, pushed;
          }
        case Arr(items) =>
          PendingItems(stack, items);
          ItemsCostNodes(items);
          var cost := SaturatingMul(|items|, NODE);
          fits, left := Charge(left, cost).0, Charge(left, cost).1;
          if !fits {
            return false, pushed;
          }
          stack := stack + items;
          pushed := pushed + |items|;
        case Obj(entries) =>
          var done;
          done, left, stack, pushed := PushEntries(entries, left, stack, pushed, budget);
          if !done {
            return false, pushed;
          }
        case _ =>
      }
    }
    ok := true;
  }

  /** The object arm: charge the members' nodes at once, then each key as its value is pushed. */
  method PushEntries(entries: seq<Entry>, left0: nat, stack0: seq<Json>, pushed0: nat, budget: nat)
    returns (ok: bool, left: nat, stack: seq<Json>, pushed: nat)
    requires left0 + NODE * pushed0 <= budget && left0 < USIZE_MAX
    ensures left + NODE * pushed <= budget && left <= left0
    ensures ok ==> && left0 - left >= NODE * |entries|
                   && left0 - left + Pending(stack) == Pending(stack0) + EntriesCost(entries)
                   && |stack| == |stack0| + |entries|
    ensures !ok ==> EntriesCost(entries) > left0
  {
    left, stack, pushed := left0, stack0, pushed0;
    EntriesCostNodes(entries);
    var cost := SaturatingMul(|entries|, NODE);
    ok, left := Charge(left, cost).0, Charge(left, cost).1;
    if !ok {
      return;
    }
    var i := 0;
    while i < |entries|
      invariant 0 <= i <= |entries| && |stack| == |stack0| + i
      invariant left + NODE * |entries| <= left0 && left + NODE * (pushed + |entries| - i) <= budget
      invariant ok
      invariant left0 - left + Pending(stack) + EntriesCost(entries[i..])
                == Pending(stack0) + EntriesCost(entries) + NODE * (|entries| - i)
      invariant Pending(stack0) <= Pending(stack)
    {
      var Entry(k, v) := entries[i];
      EntriesCostNodes(entries[i + 1..]);
      ok, left := Charge(left, |k|).0, Charge(left, |k|).1;
      if !ok {
        return;
      }
      assert (stack + [v])[..|stack|] == stack;
      stack := stack + [v];
      pushed := pushed + 1;
      i := i + 1;
    }
  }

  lemma {:induction false} ItemsCostNodes(items: seq<Json>)
    ensures ItemsCost(items) >= NODE * |items|
    decreases |items|
  {
    if items != [] {
      ItemsCostNodes(items[1..]);
    }
  }

  lemma {:induction false} EntriesCostNodes(entries: seq<Entry>)
    ensures EntriesCost(entries) >= NODE * |entries|
    decreases |entries|
  {
    if entries != [] {
      EntriesCostNodes(entries[1..]);
    }
  }
}
