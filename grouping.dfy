/**
 * How `LiftUp` turns its children into lines (src/LiftUp.tsx:73-100): a left
 * fold that seals every explicit `LiftUp.Item` as its own group and collects
 * each run of bare children into one open group, then a map that wraps every
 * open group in an implicit `LiftUp.Item`.
 */
module Grouping {
  import opened Wrappers
  import opened Configuration
  import opened Content

  /** An accumulator entry of the fold: an explicit item, or a run of bare children. */
  datatype Group = Sealed(item: ItemElement) | Open(nodes: seq<Node>)

  /** One step of the `reduce` callback. */
  function Step(groups: seq<Group>, child: Fragment): seq<Group> {
    match child
    case Item(it) => groups + [Sealed(it)]
    case Bare(n) =>
      if |groups| == 0 then [Open([n])]
      else if groups[|groups| - 1].Open? then
        groups[..|groups| - 1] + [Open(groups[|groups| - 1].nodes + [n])]
      else groups + [Open([n])]
  }

  /** The `reduce` over the children, starting from no groups. */
  function Fold(children: seq<Fragment>): seq<Group>
    decreases |children|
  {
    if |children| == 0 then []
    else Step(Fold(children[..|children| - 1]), children[|children| - 1])
  }

  /**
   * The `map` callback: an open group of one child becomes an item around that
   * child itself, a longer one an item around the whole list, and a sealed
   * group stays the caller's item.
   */
  function ToLine(g: Group): ItemElement {
    match g
    case Sealed(it) => it
    case Open(ns) => if |ns| == 1 then Implicit(Single(ns[0])) else Implicit(Many(ns))
  }

  /** The lines `LiftUp` renders, in order. */
  function Lines(children: seq<Fragment>): seq<ItemElement> {
    var gs := Fold(children);
    seq(|gs|, j requires 0 <= j < |gs| => ToLine(gs[j]))
  }

  // ---------------------------------------------------------------------------
  // An independent description of the grouping: the groups, read back as
  // children, give the input, and no open group is empty or follows another.

  /** Bare fragments for a run of nodes. */
  function Bares(ns: seq<Node>): (r: seq<Fragment>)
    ensures |r| == |ns|
    ensures forall i :: 0 <= i < |ns| ==> r[i] == Bare(ns[i])
    decreases |ns|
  {
    if |ns| == 0 then [] else Bares(ns[..|ns| - 1]) + [Bare(ns[|ns| - 1])]
  }

  /** The children one group stands for. */
  function Members(g: Group): seq<Fragment> {
    match g
    case Sealed(it) => [Item(it)]
    case Open(ns) => Bares(ns)
  }

  /** The children a sequence of groups stands for, in order. */
  function Flatten(gs: seq<Group>): seq<Fragment>
    decreases |gs|
  {
    if |gs| == 0 then [] else Flatten(gs[..|gs| - 1]) + Members(gs[|gs| - 1])
  }

  /** Open groups are non-empty and maximal: an open group only follows a sealed one. */
  ghost predicate WellFormed(gs: seq<Group>) {
    (forall j :: 0 <= j < |gs| && gs[j].Open? ==> |gs[j].nodes| > 0) &&
    (forall j, k {:trigger gs[j], gs[k]} :: 0 <= j && k == j + 1 && k < |gs| && gs[k].Open? ==> gs[j].Sealed?)
  }

  lemma FlattenSnoc(gs: seq<Group>, g: Group)
    ensures Flatten(gs + [g]) == Flatten(gs) + Members(g)
  {
    assert (gs + [g])[..|gs|] == gs;
  }

  lemma BaresSnoc(ns: seq<Node>, n: Node)
    ensures Bares(ns + [n]) == Bares(ns) + [Bare(n)]
  {
    assert (ns + [n])[..|ns|] == ns;
  }

  /** One step adds exactly the new child to what the groups stand for. */
  lemma StepFlatten(groups: seq<Group>, child: Fragment)
    ensures Flatten(Step(groups, child)) == Flatten(groups) + [child]
  {
    match child
    case Item(it) =>
      FlattenSnoc(groups, Sealed(it));
    case Bare(n) =>
      if |groups| == 0 {
        FlattenSnoc([], Open([n]));
      } else if groups[|groups| - 1].Open? {
        var init := groups[..|groups| - 1];
        var last := groups[|groups| - 1];
        assert groups == init + [last];
        FlattenSnoc(init, last);
        FlattenSnoc(init, Open(last.nodes + [n]));
        BaresSnoc(last.nodes, n);
      } else {
        FlattenSnoc(groups, Open([n]));
      }
  }

  /** One step keeps the groups well formed, never touches a sealed group, and ends with a group of the child's kind. */
  lemma StepShape(groups: seq<Group>, child: Fragment)
    requires WellFormed(groups)
    ensures WellFormed(Step(groups, child))
    ensures |groups| <= |Step(groups, child)|
    ensures forall j :: 0 <= j < |groups| && groups[j].Sealed? ==> Step(groups, child)[j] == groups[j]
    ensures Step(groups, child)[|Step(groups, child)| - 1].Open? <==> child.Bare?
  {
  }

  lemma StepExtends(groups: seq<Group>, child: Fragment)
    requires WellFormed(groups)
    ensures WellFormed(Step(groups, child))
    ensures Flatten(Step(groups, child)) == Flatten(groups) + [child]
    ensures |groups| <= |Step(groups, child)|
    ensures forall j :: 0 <= j < |groups| && groups[j].Sealed? ==> Step(groups, child)[j] == groups[j]
    ensures Step(groups, child)[|Step(groups, child)| - 1].Open? <==> child.Bare?
  {
    StepFlatten(groups, child);
    StepShape(groups, child);
  }

  /** The fold partitions the children: read back, its groups give exactly the input, in order. */
  lemma {:induction false} FoldPartitions(children: seq<Fragment>)
    ensures WellFormed(Fold(children))
    ensures Flatten(Fold(children)) == children
    decreases |children|
  {
    if |children| > 0 {
      var init, last := children[..|children| - 1], children[|children| - 1];
      assert children == init + [last];
      FoldSnoc(init, last);
      FoldPartitions(init);
      StepExtends(Fold(init), last);
    }
  }

  lemma FoldSnoc(prefix: seq<Fragment>, child: Fragment)
    ensures Fold(prefix + [child]) == Step(Fold(prefix), child)
  {
    assert (prefix + [child])[..|prefix|] == prefix;
  }

  /** Dropping the last group, or shortening a last open group that keeps a node, stays well formed. */
  lemma WellFormedShrink(init: seq<Group>, last: Group, front: seq<Node>)
    requires WellFormed(init + [last])
    ensures WellFormed(init)
    ensures last.Open? && |front| > 0 ==> WellFormed(init + [Open(front)])
    ensures last.Open? && |init| > 0 ==> init[|init| - 1].Sealed?
  {
    var gs := init + [last];
    assert forall j :: 0 <= j < |init| ==> gs[j] == init[j];
    if last.Open? && |init| > 0 {
      assert gs[|init|].Open? && gs[|init| - 1] == init[|init| - 1];
    }
    if last.Open? && |front| > 0 {
      var shorter := init + [Open(front)];
      assert forall j :: 0 <= j < |init| ==> shorter[j] == init[j];
      if |init| > 0 {
        assert gs[|init|].Open? && gs[|init| - 1] == init[|init| - 1];
        assert init[|init| - 1].Sealed?;
        assert shorter[|init| - 1].Sealed?;
      }
    }
  }

  /** The fold is the only well-formed grouping of the children: no other split into lines is possible. */
  lemma {:induction false} FoldUnique(gs: seq<Group>, children: seq<Fragment>)
    requires WellFormed(gs) && Flatten(gs) == children
    ensures gs == Fold(children)
    decreases |children|, 2
  {
    if |gs| > 0 {
      var init, last := gs[..|gs| - 1], gs[|gs| - 1];
      assert gs == init + [last];
      WellFormedShrink(init, last, []);
      match last
      case Sealed(it) =>
        assert children == Flatten(init) + [Item(it)];
        FoldUnique(init, Flatten(init));
        FoldSnoc(Flatten(init), Item(it));
      case Open(ns) =>
        FoldUniqueOpen(init, ns, children);
    }
  }

  /** The case of `FoldUnique` where the last group is a run of bare children. */
  lemma {:induction false} FoldUniqueOpen(init: seq<Group>, ns: seq<Node>, children: seq<Fragment>)
    requires WellFormed(init + [Open(ns)]) && Flatten(init + [Open(ns)]) == children
    ensures init + [Open(ns)] == Fold(children)
    decreases |children|, 1
  {
    if |ns| == 1 {
      WellFormedShrink(init, Open(ns), []);
      assert ns == [ns[0]];
      FoldUniqueFresh(init, ns[0], children);
    } else {
      FoldUniqueGrow(init, ns, children);
    }
  }

  /** A run of one bare child: the fold started it as a new open group. */
  lemma {:induction false} FoldUniqueFresh(init: seq<Group>, n: Node, children: seq<Fragment>)
    requires WellFormed(init) && (|init| > 0 ==> init[|init| - 1].Sealed?)
    requires Flatten(init + [Open([n])]) == children
    ensures init + [Open([n])] == Fold(children)
    decreases |children|, 0
  {
    FlattenSnoc(init, Open([n]));
    assert Bares([n]) == [Bare(n)];
    FoldUnique(init, Flatten(init));
    FoldSnoc(Flatten(init), Bare(n));
  }

  /** A run of several bare children: the fold appended the last one to the open group before it. */
  lemma {:induction false} FoldUniqueGrow(init: seq<Group>, ns: seq<Node>, children: seq<Fragment>)
    requires |ns| > 1 && WellFormed(init + [Open(ns)]) && Flatten(init + [Open(ns)]) == children
    ensures init + [Open(ns)] == Fold(children)
    decreases |children|, 0
  {
    var n, front := ns[|ns| - 1], ns[..|ns| - 1];
    var shorter := init + [Open(front)];
    WellFormedShrink(init, Open(ns), front);
    FlattenSnoc(init, Open(ns));
    FlattenSnoc(init, Open(front));
    assert ns == front + [n];
    BaresSnoc(front, n);
    assert children == Flatten(shorter) + [Bare(n)];
    FoldUnique(shorter, Flatten(shorter));
    FoldSnoc(Flatten(shorter), Bare(n));
    assert shorter[..|shorter| - 1] == init;
  }

  /** Every explicit item ends up alone in a sealed group, which renders as that very item. */
  lemma {:induction false} ItemKeepsOwnLine(children: seq<Fragment>, i: nat)
    requires i < |children| && children[i].Item?
    ensures exists j :: 0 <= j < |Fold(children)| && Fold(children)[j] == Sealed(children[i].item)
                        && Lines(children)[j] == children[i].item
    decreases |children|
  {
    var init := children[..|children| - 1];
    FoldPartitions(init);
    StepExtends(Fold(init), children[|children| - 1]);
    if i == |children| - 1 {
      var j := |Fold(children)| - 1;
      assert Fold(children)[j] == Sealed(children[i].item);
      assert Lines(children)[j] == ToLine(Fold(children)[j]);
    } else {
      ItemKeepsOwnLine(init, i);
      var j :| 0 <= j < |Fold(init)| && Fold(init)[j] == Sealed(init[i].item);
      assert Fold(children)[j] == Fold(init)[j];
      assert Lines(children)[j] == ToLine(Fold(children)[j]);
    }
  }

  /** Explicit items among the children. */
  function ItemCount(children: seq<Fragment>): nat
    decreases |children|
  {
    if |children| == 0 then 0
    else ItemCount(children[..|children| - 1]) + (if children[|children| - 1].Item? then 1 else 0)
  }

  /** Bare children that start a run: the first child, or one right after an explicit item. */
  function RunStarts(children: seq<Fragment>): nat
    decreases |children|
  {
    if |children| == 0 then 0
    else
      var init := children[..|children| - 1];
      RunStarts(init) + (if children[|children| - 1].Bare? && (|init| == 0 || init[|init| - 1].Item?) then 1 else 0)
  }

  /** One line per explicit item plus one per run of bare children; no children, no lines. */
  lemma {:induction false} LineCount(children: seq<Fragment>)
    ensures |Lines(children)| == ItemCount(children) + RunStarts(children)
    ensures |children| > 0 ==>
              |Fold(children)| > 0 && (Fold(children)[|Fold(children)| - 1].Open? <==> children[|children| - 1].Bare?)
    decreases |children|
  {
    if |children| > 0 {
      var init := children[..|children| - 1];
      LineCount(init);
      FoldPartitions(init);
      StepExtends(Fold(init), children[|children| - 1]);
    }
  }

  /** Bare children alone, however many, make exactly one line holding all of them in order. */
  lemma {:induction false} BareRunIsOneLine(children: seq<Fragment>)
    requires |children| > 0
    requires forall i :: 0 <= i < |children| ==> children[i].Bare?
    ensures |Fold(children)| == 1 && Fold(children)[0].Open?
    ensures |Fold(children)[0].nodes| == |children|
    ensures forall i :: 0 <= i < |children| ==> Fold(children)[0].nodes[i] == children[i].node
    ensures |Lines(children)| == 1
    decreases |children|
  {
    if |children| > 1 {
      BareRunIsOneLine(children[..|children| - 1]);
    }
  }

  /** Explicit items alone map one to one onto lines, unchanged. */
  lemma {:induction false} ItemsAreLines(children: seq<Fragment>)
    requires forall i :: 0 <= i < |children| ==> children[i].Item?
    ensures |Fold(children)| == |children|
    ensures forall j :: 0 <= j < |children| ==> Fold(children)[j] == Sealed(children[j].item)
    ensures |Lines(children)| == |children|
    ensures forall j :: 0 <= j < |children| ==> Lines(children)[j] == children[j].item
    decreases |children|
  {
    if |children| > 0 {
      ItemsAreLines(children[..|children| - 1]);
    }
    assert forall j :: 0 <= j < |children| ==> Lines(children)[j] == ToLine(Fold(children)[j]);
  }

  /** `[Item A, B, C, Item D]` gives three lines: A, an implicit line around [B, C], and D. */
  lemma ExampleTwoItemsAroundRun(a: ItemElement, b: Node, c: Node, d: ItemElement)
    ensures Lines([Item(a), Bare(b), Bare(c), Item(d)]) == [a, Implicit(Many([b, c])), d]
  {
    var c1, c2, c3, c4 := [Item(a)], [Item(a), Bare(b)], [Item(a), Bare(b), Bare(c)], [Item(a), Bare(b), Bare(c), Item(d)];
    assert c1[..0] == [] && c2[..1] == c1 && c3[..2] == c2 && c4[..3] == c3;
    assert Fold(c1) == [Sealed(a)];
    assert Fold(c2) == [Sealed(a), Open([b])];
    assert Fold(c3) == Step([Sealed(a), Open([b])], Bare(c));
    assert [b] + [c] == [b, c];
    assert [Sealed(a), Open([b])][..1] + [Open([b] + [c])] == [Sealed(a), Open([b, c])];
    assert Fold(c4) == [Sealed(a), Open([b, c]), Sealed(d)];
  }

  /** `[Item A, B]`: the second line is an item around B itself, not around a one-element list. */
  lemma ExampleSingleBareUnwrapped(a: ItemElement, b: Node)
    ensures Lines([Item(a), Bare(b)]) == [a, Implicit(Single(b))]
  {
    var c1, c2 := [Item(a)], [Item(a), Bare(b)];
    assert c1[..0] == [] && c2[..1] == c1;
    assert Fold(c1) == [Sealed(a)];
    assert Fold(c2) == [Sealed(a), Open([b])];
  }
}
