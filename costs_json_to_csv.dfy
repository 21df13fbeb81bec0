/** Flattening a cost tree into one row per task: a stack of (call key, cost) pairs is popped
    from its end; a workflow's own call costs are pushed back on the stack, and a task becomes
    a row named by its own call key. */
module CostsCsv {
  import opened Json
  import opened Billing

  /** One row of the table: the task's fields under its own call key. */
  datatype Entry = Entry(callName: string, cost: TaskCost)

  /** The number of nodes in a tree and in a list of keyed trees. */
  function Size(n: CostNode): nat
    decreases n
  {
    if n.Task? then 1
    else 1 + SumNats(seq(|n.callCosts|, i requires 0 <= i < |n.callCosts| => Size(n.callCosts[i].1)))
  }

  function SumNats(s: seq<nat>): nat
  {
    if |s| == 0 then 0 else s[0] + SumNats(s[1..])
  }

  function ForestSize(cc: seq<(string, CostNode)>): nat
  {
    if |cc| == 0 then 0 else Size(cc[0].1) + ForestSize(cc[1..])
  }

  /** A workflow counts itself and the nodes of its calls. */
  lemma WorkflowSize(n: CostNode)
    requires n.Workflow?
    ensures Size(n) == 1 + ForestSize(n.callCosts)
  {
    var cc := n.callCosts;
    assert seq(|cc|, i requires 0 <= i < |cc| => Size(cc[i].1)) == Sizes(cc);
    SumSizes(cc);
  }

  function Sizes(cc: seq<(string, CostNode)>): seq<nat>
  {
    seq(|cc|, i requires 0 <= i < |cc| => Size(cc[i].1))
  }

  lemma {:induction false} SumSizes(cc: seq<(string, CostNode)>)
    ensures SumNats(Sizes(cc)) == ForestSize(cc)
  {
    if |cc| > 0 {
      assert Sizes(cc)[1..] == Sizes(cc[1..]);
      SumSizes(cc[1..]);
    }
  }

  lemma {:induction false} ForestSizeAppend(a: seq<(string, CostNode)>, b: seq<(string, CostNode)>)
    ensures ForestSize(a + b) == ForestSize(a) + ForestSize(b)
  {
    if |a| > 0 {
      assert (a + b)[1..] == a[1..] + b;
      ForestSizeAppend(a[1..], b);
    } else {
      assert a + b == b;
    }
  }

  /** The frontier without its last item, and that item's size. */
  lemma SizeOfPop(frontier: seq<(string, CostNode)>)
    requires |frontier| > 0
    ensures ForestSize(frontier) == ForestSize(frontier[..|frontier| - 1]) + Size(frontier[|frontier| - 1].1)
  {
    var k := |frontier| - 1;
    assert frontier == frontier[..k] + [frontier[k]];
    ForestSizeAppend(frontier[..k], [frontier[k]]);
  }

  /** The rows the loop emits from a frontier, last item first; a workflow on top is replaced by
      its own call costs. This is the specification of `TaskCosts`. */
  function Flatten(frontier: seq<(string, CostNode)>): seq<Entry>
    decreases ForestSize(frontier)
  {
    if |frontier| == 0 then []
    else
      var rest := frontier[..|frontier| - 1];
      var (name, node) := frontier[|frontier| - 1];
      SizeOfPop(frontier);
      if node.Task? then [Entry(name, node.cost)] + Flatten(rest)
      else
        WorkflowSize(node);
        ForestSizeAppend(rest, node.callCosts);
        Flatten(rest + node.callCosts)
  }

  /** `task_costs`: the tree's root must have call costs; the rows are the flattening of them. */
  method TaskCosts(root: CostNode) returns (r: Result<seq<Entry>>)
    ensures root.Task? ==> r == Err(KeyError)
    ensures root.Workflow? ==> r == Ok(Flatten(root.callCosts))
  {
    if root.Task? {
      return Err(KeyError);
    }
    var frontier := root.callCosts;
    var entries: seq<Entry> := [];
    while |frontier| > 0
      invariant entries + Flatten(frontier) == Flatten(root.callCosts)
      decreases ForestSize(frontier)
    {
      var (name, node) := frontier[|frontier| - 1];
      SizeOfPop(frontier);
      ghost var before := frontier;
      frontier := frontier[..|frontier| - 1];
      if node.Workflow? {
        WorkflowSize(node);
        ForestSizeAppend(frontier, node.callCosts);
        frontier := frontier + node.callCosts;
      } else {
        assert Flatten(before) == [Entry(name, node.cost)] + Flatten(frontier);
        entries := entries + [Entry(name, node.cost)];
      }
    }
    assert entries + Flatten(frontier) == entries;
    return Ok(entries);
  }

  // ---- the rows as a function of the tree -------------------------------

  /** The leaves of a tree in depth-first order, each named by its own key. */
  function TreeLeaves(name: string, n: CostNode): seq<Entry>
    decreases n
  {
    if n.Task? then [Entry(name, n.cost)]
    else Concat(seq(|n.callCosts|, i requires 0 <= i < |n.callCosts| => TreeLeaves(n.callCosts[i].0, n.callCosts[i].1)))
  }

  function Concat<T>(ss: seq<seq<T>>): seq<T>
  {
    if |ss| == 0 then [] else ss[0] + Concat(ss[1..])
  }

  function ForestLeaves(cc: seq<(string, CostNode)>): seq<Entry>
  {
    if |cc| == 0 then [] else TreeLeaves(cc[0].0, cc[0].1) + ForestLeaves(cc[1..])
  }

  function LeafLists(cc: seq<(string, CostNode)>): seq<seq<Entry>>
  {
    seq(|cc|, i requires 0 <= i < |cc| => TreeLeaves(cc[i].0, cc[i].1))
  }

  lemma {:induction false} ConcatLeafLists(cc: seq<(string, CostNode)>)
    ensures Concat(LeafLists(cc)) == ForestLeaves(cc)
  {
    if |cc| > 0 {
      assert LeafLists(cc)[1..] == LeafLists(cc[1..]);
      ConcatLeafLists(cc[1..]);
    }
  }

  /** A workflow's leaves are the leaves of its calls, in order. */
  lemma WorkflowLeaves(name: string, n: CostNode)
    requires n.Workflow?
    ensures TreeLeaves(name, n) == ForestLeaves(n.callCosts)
  {
    var cc := n.callCosts;
    assert seq(|cc|, i requires 0 <= i < |cc| => TreeLeaves(cc[i].0, cc[i].1)) == LeafLists(cc);
    ConcatLeafLists(cc);
  }

  function Reverse<T>(s: seq<T>): (r: seq<T>)
    ensures |r| == |s| && forall i :: 0 <= i < |s| ==> r[i] == s[|s| - 1 - i]
  {
    if |s| == 0 then [] else Reverse(s[1..]) + [s[0]]
  }

  lemma {:induction false} ForestLeavesAppend(a: seq<(string, CostNode)>, b: seq<(string, CostNode)>)
    ensures ForestLeaves(a + b) == ForestLeaves(a) + ForestLeaves(b)
  {
    if |a| > 0 {
      assert (a + b)[1..] == a[1..] + b;
      ForestLeavesAppend(a[1..], b);
    } else {
      assert a + b == b;
    }
  }

  /** The stack visits the leaves in exactly the reverse of depth-first order: every leaf, at
      any depth, gives one row, and no workflow gives a row. */
  lemma {:induction false} FlattenIsReversedLeaves(frontier: seq<(string, CostNode)>)
    ensures Flatten(frontier) == Reverse(ForestLeaves(frontier))
    decreases ForestSize(frontier)
  {
    if |frontier| > 0 {
      var k := |frontier| - 1;
      var rest := frontier[..k];
      var (name, node) := frontier[k];
      SizeOfPop(frontier);
      assert frontier == rest + [frontier[k]];
      ForestLeavesAppend(rest, [frontier[k]]);
      assert ForestLeaves([frontier[k]]) == TreeLeaves(name, node);
      if node.Task? {
        FlattenIsReversedLeaves(rest);
        ReverseAppend(ForestLeaves(rest), [Entry(name, node.cost)]);
      } else {
        WorkflowSize(node);
        WorkflowLeaves(name, node);
        ForestSizeAppend(rest, node.callCosts);
        FlattenIsReversedLeaves(rest + node.callCosts);
        ForestLeavesAppend(rest, node.callCosts);
      }
    }
  }

  /** Every leaf gives exactly one row: the rows are the leaves, counted with multiplicity. */
  lemma RowsAreLeaves(frontier: seq<(string, CostNode)>)
    ensures multiset(Flatten(frontier)) == multiset(ForestLeaves(frontier))
  {
    FlattenIsReversedLeaves(frontier);
    ReverseMultiset(ForestLeaves(frontier));
  }

  lemma {:induction false} ReverseMultiset<T>(s: seq<T>)
    ensures multiset(Reverse(s)) == multiset(s)
  {
    if |s| > 0 {
      ReverseMultiset(s[1..]);
      assert s == [s[0]] + s[1..];
      assert Reverse(s) == Reverse(s[1..]) + [s[0]];
    }
  }

  lemma ReverseAppend<T>(a: seq<T>, b: seq<T>)
    ensures Reverse(a + b) == Reverse(b) + Reverse(a)
  {
  }

  /** When the last item on the frontier is a task, its row comes first. */
  lemma LastItemFirst(frontier: seq<(string, CostNode)>)
    requires |frontier| > 0 && frontier[|frontier| - 1].1.Task?
    ensures Flatten(frontier)[0] == Entry(frontier[|frontier| - 1].0, frontier[|frontier| - 1].1.cost)
  {
  }

  // ---- totals -----------------------------------------------------------

  function SumEntries(es: seq<Entry>): real
  {
    if |es| == 0 then 0.0 else es[0].cost.totalCost + SumEntries(es[1..])
  }

  lemma {:induction false} SumEntriesAppend(a: seq<Entry>, b: seq<Entry>)
    ensures SumEntries(a + b) == SumEntries(a) + SumEntries(b)
  {
    if |a| > 0 {
      assert (a + b)[1..] == a[1..] + b;
      SumEntriesAppend(a[1..], b);
    } else {
      assert a + b == b;
    }
  }

  lemma {:induction false} SumEntriesReverse(es: seq<Entry>)
    ensures SumEntries(Reverse(es)) == SumEntries(es)
  {
    if |es| > 0 {
      SumEntriesReverse(es[1..]);
      SumEntriesAppend(Reverse(es[1..]), [es[0]]);
    }
  }

  /** On a consistent tree, the leaves' totals add up to the tree's total. */
  lemma {:induction false} TreeLeavesTotal(name: string, n: CostNode)
    requires Consistent(n)
    ensures SumEntries(TreeLeaves(name, n)) == n.Total()
    decreases n
  {
    if n.Workflow? {
      var cc := n.callCosts;
      forall i | 0 <= i < |cc| ensures SumEntries(TreeLeaves(cc[i].0, cc[i].1)) == cc[i].1.Total() {
        TreeLeavesTotal(cc[i].0, cc[i].1);
      }
      ForestLeavesTotal(cc);
      WorkflowLeaves(name, n);
    }
  }

  lemma {:induction false} ForestLeavesTotal(cc: seq<(string, CostNode)>)
    requires forall i :: 0 <= i < |cc| ==> SumEntries(TreeLeaves(cc[i].0, cc[i].1)) == cc[i].1.Total()
    ensures SumEntries(ForestLeaves(cc)) == SumTotal(cc)
  {
    if |cc| > 0 {
      assert forall i :: 0 <= i < |cc| - 1 ==> cc[1..][i] == cc[i + 1];
      ForestLeavesTotal(cc[1..]);
      SumEntriesAppend(TreeLeaves(cc[0].0, cc[0].1), ForestLeaves(cc[1..]));
    }
  }

  /** On a tree the estimators build, the rows' totals add up to the root's total cost. */
  lemma RowsAddUpToRoot(root: CostNode)
    requires root.Workflow? && Consistent(root)
    ensures SumEntries(Flatten(root.callCosts)) == root.totalCost
  {
    FlattenIsReversedLeaves(root.callCosts);
    SumEntriesReverse(ForestLeaves(root.callCosts));
    TreeLeavesTotal("", root);
    WorkflowLeaves("", root);
  }
}
