/** _nesting_depth of afa_api/jobs.py: the depth of a parsed document, with an explicit stack and an early exit. */
module Nesting {
  const MAX_JSON_DEPTH: nat := 32

  /** A parsed document; a dictionary only matters through its values. */
  datatype Value = Scalar(content: int) | List(items: seq<Value>) | Dict(values: seq<Value>)

  function Children(v: Value): (c: seq<Value>)
    requires !v.Scalar?
    ensures forall i :: 0 <= i < |c| ==> c[i] < v
  {
    if v.List? then v.items else v.values
  }

  /** Nested lists and dictionaries: a scalar has depth zero. */
  function Depth(v: Value): nat
    decreases v
  {
    if v.Scalar? then 0 else 1 + MaxDepth(Children(v), v)
  }

  function MaxDepth(vs: seq<Value>, parent: Value): nat
    requires forall i :: 0 <= i < |vs| ==> vs[i] < parent
    decreases parent, |vs|
  {
    if vs == [] then 0
    else
      var rest, last := MaxDepth(vs[..|vs| - 1], parent), Depth(vs[|vs| - 1]);
      if last > rest then last else rest
  }

  /** A chain of n containers, each inside the one before, starts at v. */
  ghost predicate Chain(v: Value, n: nat)
    decreases n
  {
    n == 0 || (!v.Scalar? && (n == 1 || exists i :: 0 <= i < |Children(v)| && Chain(Children(v)[i], n - 1)))
  }

  /** The depth is the length of the longest chain. */
  lemma {:induction false} DepthIsLongestChain(v: Value, n: nat)
    ensures Chain(v, n) <==> n <= Depth(v)
    decreases n
  {
    if n > 1 && !v.Scalar? {
      var c := Children(v);
      forall i | 0 <= i < |c| ensures Chain(c[i], n - 1) <==> n - 1 <= Depth(c[i]) { DepthIsLongestChain(c[i], n - 1); }
      DeepestChild(c, v, n - 1);
    }
  }

  lemma {:induction false} DeepestChild(vs: seq<Value>, parent: Value, n: nat)
    requires n > 0 && forall i :: 0 <= i < |vs| ==> vs[i] < parent
    ensures n <= MaxDepth(vs, parent) <==> exists i :: 0 <= i < |vs| && n <= Depth(vs[i])
  {
    if vs != [] {
      var rest, last := vs[..|vs| - 1], vs[|vs| - 1];
      DeepestChild(rest, parent, n);
      if i :| 0 <= i < |rest| && n <= Depth(rest[i]) { assert n <= Depth(vs[i]); }
      if i :| 0 <= i < |vs| && n <= Depth(vs[i]) {
        if i < |rest| { assert rest[i] == vs[i]; }
      }
    }
  }

  function Size(v: Value): (n: nat)
    ensures n > 0
    decreases v
  {
    if v.Scalar? then 1 else 1 + TotalSize(Children(v), v)
  }

  function TotalSize(vs: seq<Value>, parent: Value): nat
    requires forall i :: 0 <= i < |vs| ==> vs[i] < parent
    decreases parent, |vs|
  {
    if vs == [] then 0 else TotalSize(vs[..|vs| - 1], parent) + Size(vs[|vs| - 1])
  }

  /** A value to visit, with the depth it has if it is a container. */
  datatype Item = Item(value: Value, depth: nat)

  function StackSize(stack: seq<Item>): nat {
    if stack == [] then 0 else StackSize(stack[..|stack| - 1]) + Size(stack[|stack| - 1].value)
  }

  /** One more than the greatest depth reached inside any stacked item, counted from the root. */
  function Reach(stack: seq<Item>): nat {
    if stack == [] then 0
    else
      var rest, top := Reach(stack[..|stack| - 1]), stack[|stack| - 1];
      var own := top.depth + Depth(top.value);
      if own > rest then own else rest
  }

  /** The children of a container, one level deeper. */
  function Pushed(vs: seq<Value>, depth: nat): (items: seq<Item>)
    ensures |items| == |vs| && forall i :: 0 <= i < |vs| ==> items[i] == Item(vs[i], depth)
  {
    seq(|vs|, i requires 0 <= i < |vs| => Item(vs[i], depth))
  }

  lemma {:induction false} ReachJoin(s: seq<Item>, t: seq<Item>)
    ensures Reach(s + t) == if Reach(s) > Reach(t) then Reach(s) else Reach(t)
    ensures StackSize(s + t) == StackSize(s) + StackSize(t)
  {
    if t == [] {
      assert s + t == s;
    } else {
      assert (s + t)[..|s + t| - 1] == s + t[..|t| - 1];
      ReachJoin(s, t[..|t| - 1]);
    }
  }

  lemma {:induction false} PushedReach(vs: seq<Value>, parent: Value, depth: nat)
    requires forall i :: 0 <= i < |vs| ==> vs[i] < parent
    ensures Reach(Pushed(vs, depth)) == if vs == [] then 0 else depth + MaxDepth(vs, parent)
    ensures StackSize(Pushed(vs, depth)) == TotalSize(vs, parent)
  {
    if vs != [] {
      assert Pushed(vs, depth)[..|vs| - 1] == Pushed(vs[..|vs| - 1], depth);
      PushedReach(vs[..|vs| - 1], parent, depth);
    }
  }

  function Max(a: nat, b: nat): nat {
    if a > b then a else b
  }

  /** One pop: the item's own depth is noted and its children stacked, and the deepest reach stays the same. */
  lemma PopKeepsReach(rest: seq<Item>, item: Item, deepest: nat)
    requires item.depth <= deepest + 1
    ensures item.value.Scalar? ==> Max(deepest + 1, Reach(rest + [item])) == Max(deepest + 1, Reach(rest))
    ensures !item.value.Scalar? ==>
      && Max(deepest + 1, Reach(rest + [item]))
         == Max(Max(deepest, item.depth) + 1, Reach(rest + Pushed(Children(item.value), item.depth + 1)))
      && StackSize(rest + Pushed(Children(item.value), item.depth + 1)) < StackSize(rest + [item])
    ensures StackSize(rest) < StackSize(rest + [item])
  {
    assert (rest + [item])[..|rest|] == rest;
    if !item.value.Scalar? {
      ReachJoin(rest, Pushed(Children(item.value), item.depth + 1));
      PushedReach(Children(item.value), item.value, item.depth + 1);
    }
  }

  /** The exact depth of a document within the limit, and some depth beyond the limit of any other. */
  method NestingDepth(value: Value) returns (deepest: nat)
    ensures Depth(value) <= MAX_JSON_DEPTH ==> deepest == Depth(value)
    ensures Depth(value) > MAX_JSON_DEPTH ==> MAX_JSON_DEPTH < deepest <= Depth(value)
    ensures deepest > 32 <==> Chain(value, 33)
    ensures deepest <= 32 ==> Chain(value, deepest) && !Chain(value, deepest + 1)
  {
    hide Chain;
    deepest := 0;
    var stack := [Item(value, 1)];
    assert Reach([]) == 0;
    while stack != []
      invariant Max(deepest + 1, Reach(stack)) == Depth(value) + 1
      invariant forall i :: 0 <= i < |stack| ==> stack[i].depth <= deepest + 1
      invariant deepest <= MAX_JSON_DEPTH
      decreases StackSize(stack)
    {
      var item, rest := stack[|stack| - 1], stack[..|stack| - 1];
      assert stack == rest + [item];
      PopKeepsReach(rest, item, deepest);
      stack := rest;
      if item.value.Scalar? { continue; }
      deepest := Max(deepest, item.depth);
      if deepest > MAX_JSON_DEPTH {
        ChainsDecide(value, deepest);
        return;
      }
      stack := stack + Pushed(Children(item.value), item.depth + 1);
    }
    ChainsDecide(value, deepest);
  }

  lemma ChainsDecide(value: Value, deepest: nat)
    requires Depth(value) <= 32 ==> deepest == Depth(value)
    requires Depth(value) > 32 ==> 32 < deepest <= Depth(value)
    ensures deepest > 32 <==> Chain(value, 33)
    ensures deepest <= 32 ==> Chain(value, deepest) && !Chain(value, deepest + 1)
  {
    hide Chain, Depth;
    DepthIsLongestChain(value, 33);
    DepthIsLongestChain(value, deepest);
    DepthIsLongestChain(value, deepest + 1);
  }
}
