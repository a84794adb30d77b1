/**
 * DProfileSection::Display: gather a section's children, sort them for the
 * chosen mode, and emit one row per child (tree-guide label, total, average,
 * count) followed by that child's own rows under an extended prefix.
 */
module Display {
  import opened Sections
  import opened ContextModel

  /**
   * One report line: its label and the total, average and count columns.
   * `section` is the arena index of the section the line shows; it is not
   * printed.
   */
  datatype Row = Row(text: string, total: real, average: real, count: nat, section: nat)

  /** The label of a child row: the prefix minus its last guide, then "+ ", then the name. */
  function Label(prefix: string, name: string): string
  {
    if |prefix| > 1 then prefix[..|prefix| - 2] + "+ " + name else name
  }

  /**
   * The prefix handed to a child: the last sibling turns the trailing guide
   * into blanks, and every child adds a new "| " guide.
   */
  function ChildPrefix(prefix: string, isLast: bool): string
  {
    (if |prefix| > 1 && isLast then prefix[..|prefix| - 2] + "  " else prefix) + "| "
  }

  /** A row shows its section's name after the guides and the "+ " marker. */
  lemma LabelShape(prefix: string, name: string)
    requires |prefix| >= 2
    ensures var text := Label(prefix, name);
            && |text| == |prefix| + |name|
            && text[..|prefix| - 2] == prefix[..|prefix| - 2]
            && text[|prefix| - 2..|prefix|] == "+ "
            && text[|prefix|..] == name
  {
  }

  /**
   * A child prefix is two characters longer, keeps all guides but the last,
   * ends in "| ", and its second-to-last guide is blank exactly for the last
   * sibling.
   */
  lemma ChildPrefixShape(prefix: string, isLast: bool)
    requires |prefix| >= 2
    ensures var p := ChildPrefix(prefix, isLast);
            && |p| == |prefix| + 2
            && p[..|prefix| - 2] == prefix[..|prefix| - 2]
            && p[|prefix| - 2..|prefix|] == (if isLast then "  " else prefix[|prefix| - 2..])
            && p[|prefix|..] == "| "
  {
  }

  function RowOf(prefix: string, nodes: seq<Section>, c: nat): Row
    requires c < |nodes|
  {
    Row(Label(prefix, nodes[c].name), Total(nodes[c]), nodes[c].avgTime, nodes[c].callCount, c)
  }

  ghost predicate InRange(order: seq<nat>, n: nat)
  {
    forall k :: 0 <= k < |order| ==> order[k] < n
  }

  /** No section in `order` is placed before one that the comparator puts ahead of it. */
  ghost predicate Sorted(nodes: seq<Section>, sort: SortBy, order: seq<nat>)
    requires InRange(order, |nodes|)
  {
    forall a, b :: 0 <= a < b < |order| ==> !Before(sort, nodes[order[b]], nodes[order[a]])
  }

  /** A display order of section i's children: each child exactly once, sorted for the mode. */
  ghost predicate IsDisplayOrder(nodes: seq<Section>, i: nat, sort: SortBy, order: seq<nat>)
    requires i < |nodes|
  {
    && InRange(order, |nodes|)
    && multiset(order) == multiset(nodes[i].children.Values)
    && Sorted(nodes, sort, order)
  }

  /** A sequence holding the elements of a set, each as often as the set does, repeats none. */
  lemma NoRepeats(order: seq<nat>, values: set<nat>)
    requires multiset(order) == multiset(values)
    ensures forall a, b :: 0 <= a < b < |order| ==> order[a] != order[b]
  {
    forall a, b | 0 <= a < b < |order| ensures order[a] != order[b] {
      assert order == order[..b] + order[b..];
      assert order[..b][a] == order[a] && order[b..][0] == order[b];
      assert multiset(order)[order[a]] == multiset(order[..b])[order[a]] + multiset(order[b..])[order[a]];
      assert multiset(order[..b])[order[a]] >= 1 && multiset(order[b..])[order[b]] >= 1;
    }
  }

  /**
   * What a display order promises for each mode: every child appears once;
   * by total time the cumulative times never increase down the list; by
   * execution order, in a tree whose ids follow creation order, the ids
   * strictly increase.
   */
  lemma DisplayOrderMeaning(nodes: seq<Section>, i: nat, sort: SortBy, order: seq<nat>)
    requires i < |nodes| && IsDisplayOrder(nodes, i, sort, order)
    requires sort == SortExecution ==> IdsIncreasing(nodes)
    ensures forall a, b :: 0 <= a < b < |order| ==> order[a] != order[b]
    ensures forall k :: 0 <= k < |order| ==> order[k] in nodes[i].children.Values
    ensures sort == SortTime ==>
              forall a, b :: 0 <= a < b < |order| ==> Total(nodes[order[a]]) >= Total(nodes[order[b]])
    ensures sort == SortExecution ==>
              forall a, b :: 0 <= a < b < |order| ==> nodes[order[a]].execOrderId < nodes[order[b]].execOrderId
  {
    NoRepeats(order, nodes[i].children.Values);
    forall k | 0 <= k < |order| ensures order[k] in nodes[i].children.Values {
      assert order[k] in multiset(order);
    }
  }

  /** The rows of the first n children in `order`: each child's row followed by its block. */
  function Level(nodes: seq<Section>, order: seq<nat>, prefix: string, parts: seq<seq<Row>>, n: nat): seq<Row>
    requires n <= |order| && n <= |parts| && InRange(order, |nodes|)
  {
    if n == 0 then []
    else Level(nodes, order, prefix, parts, n - 1) + [RowOf(prefix, nodes, order[n - 1])] + parts[n - 1]
  }

  /**
   * The display order chosen at every level of a subtree: the order of
   * section's children and, per child, the plan of its own subtree. The order
   * among children that the comparator ties is left open, as std::sort
   * leaves it; a plan fixes one choice.
   */
  datatype Plan = Plan(order: seq<nat>, subs: seq<Plan>)

  /** `plan` orders every level of the subtree under section i for the mode. */
  ghost predicate Follows(nodes: seq<Section>, i: nat, sort: SortBy, plan: Plan)
    decreases plan
  {
    && i < |nodes|
    && IsDisplayOrder(nodes, i, sort, plan.order)
    && |plan.subs| == |plan.order|
    && forall k :: 0 <= k < |plan.order| ==> i < plan.order[k] && Follows(nodes, plan.order[k], sort, plan.subs[k])
  }

  /**
   * What Display(prefix, sort) prints for section i under a plan: the
   * children in the plan's order, each child's row followed by the rows its
   * own Display prints under the child prefix.
   */
  ghost function Render(nodes: seq<Section>, i: nat, prefix: string, sort: SortBy, plan: Plan): seq<Row>
    requires Follows(nodes, i, sort, plan)
    decreases plan, 1
  {
    Level(nodes, plan.order, prefix, Blocks(nodes, prefix, sort, plan), |plan.order|)
  }

  /** The rows each child's own Display prints, child by child. */
  ghost function Blocks(nodes: seq<Section>, prefix: string, sort: SortBy, plan: Plan): (parts: seq<seq<Row>>)
    requires |plan.subs| == |plan.order|
    requires forall k :: 0 <= k < |plan.order| ==> Follows(nodes, plan.order[k], sort, plan.subs[k])
    ensures |parts| == |plan.order|
    decreases plan, 0
  {
    seq(|plan.order|, k requires 0 <= k < |plan.order| =>
      Render(nodes, plan.order[k], ChildPrefix(prefix, k == |plan.order| - 1), sort, plan.subs[k]))
  }

  lemma {:induction false} LevelPrefix(nodes: seq<Section>, order: seq<nat>, prefix: string, parts: seq<seq<Row>>, more: seq<seq<Row>>, n: nat)
    requires n <= |order| && n <= |parts| && InRange(order, |nodes|)
    ensures Level(nodes, order, prefix, parts + more, n) == Level(nodes, order, prefix, parts, n)
    decreases n
  {
    if n > 0 {
      LevelPrefix(nodes, order, prefix, parts, more, n - 1);
    }
  }

  /**
   * Every row shows a section after `lo` in the arena, with that section's
   * cumulative time, average and call count.
   */
  ghost predicate RowsShow(nodes: seq<Section>, rows: seq<Row>, lo: nat)
  {
    forall k :: 0 <= k < |rows| ==>
      && lo < rows[k].section < |nodes|
      && rows[k].total == Total(nodes[rows[k].section])
      && rows[k].average == nodes[rows[k].section].avgTime
      && rows[k].count == nodes[rows[k].section].callCount
  }

  lemma {:induction false} LevelRowsShow(nodes: seq<Section>, order: seq<nat>, prefix: string, parts: seq<seq<Row>>, n: nat, lo: nat)
    requires n <= |order| && n <= |parts| && InRange(order, |nodes|)
    requires forall k :: 0 <= k < n ==> lo < order[k] && RowsShow(nodes, parts[k], lo)
    ensures RowsShow(nodes, Level(nodes, order, prefix, parts, n), lo)
    decreases n
  {
    if n > 0 {
      LevelRowsShow(nodes, order, prefix, parts, n - 1, lo);
      var head := Level(nodes, order, prefix, parts, n - 1) + [RowOf(prefix, nodes, order[n - 1])];
      assert RowsShow(nodes, head, lo);
    }
  }

  /**
   * The rows Display prints for section i show only sections below i, each
   * with its own statistics; in particular the top-level section, entry 0,
   * never gets a row of its own.
   */
  lemma {:induction false} RenderRowsShow(nodes: seq<Section>, i: nat, prefix: string, sort: SortBy, plan: Plan)
    requires Follows(nodes, i, sort, plan)
    ensures RowsShow(nodes, Render(nodes, i, prefix, sort, plan), i)
    decreases plan
  {
    var parts := Blocks(nodes, prefix, sort, plan);
    forall k | 0 <= k < |plan.order| ensures i < plan.order[k] && RowsShow(nodes, parts[k], i) {
      RenderRowsShow(nodes, plan.order[k], ChildPrefix(prefix, k == |plan.order| - 1), sort, plan.subs[k]);
    }
    LevelRowsShow(nodes, plan.order, prefix, parts, |plan.order|, i);
  }

  /** No two keys of the map name the same section. */
  ghost predicate Injective(m: map<string, nat>)
  {
    forall x, y :: x in m && y in m && m[x] == m[y] ==> x == y
  }

  /** The children of one section are distinct sections. */
  lemma ChildMapInjective(nodes: seq<Section>, i: nat)
    requires ValidTree(nodes) && i < |nodes|
    ensures Injective(nodes[i].children)
  {
    forall x, y | x in nodes[i].children && y in nodes[i].children && nodes[i].children[x] == nodes[i].children[y]
      ensures x == y
    {
      assert ChildLinked(nodes, i, x) && ChildLinked(nodes, i, y);
    }
  }

  lemma RemoveKeyValues(m: map<string, nat>, key: string)
    requires Injective(m) && key in m
    ensures Injective(m - {key})
    ensures multiset(m.Values) == multiset((m - {key}).Values) + multiset{m[key]}
  {
    var rest := m - {key};
    forall v ensures v in rest.Values <==> v in m.Values && v != m[key] {
      if v in rest.Values {
        var k :| k in rest && rest[k] == v;
        assert k in m && m[k] == v;
      }
      if v in m.Values && v != m[key] {
        var k :| k in m && m[k] == v;
        assert k in rest && rest[k] == v;
      }
    }
    assert m.Values == rest.Values + {m[key]};
  }

  /** Every section in a vector holding the children of i comes after i in the arena. */
  lemma ChildrenAfter(nodes: seq<Section>, i: nat, vect: seq<nat>)
    requires ValidTree(nodes) && i < |nodes| && multiset(vect) == multiset(nodes[i].children.Values)
    ensures forall k :: 0 <= k < |vect| ==> i < vect[k] < |nodes|
  {
    forall k | 0 <= k < |vect| ensures i < vect[k] < |nodes| {
      assert vect[k] in multiset(vect);
      var key :| key in nodes[i].children && nodes[i].children[key] == vect[k];
      assert ChildLinked(nodes, i, key);
    }
  }

  /**
   * The vector Display fills from a section's child map before sorting it:
   * every child once.
   */
  method ChildrenVector(children: map<string, nat>) returns (vect: seq<nat>)
    requires Injective(children)
    ensures multiset(vect) == multiset(children.Values)
  {
    var rest := children;
    vect := [];
    while rest != map[]
      invariant Injective(rest)
      invariant multiset(vect) + multiset(rest.Values) == multiset(children.Values)
      decreases |rest|
    {
      var key :| key in rest;
      RemoveKeyValues(rest, key);
      vect := vect + [rest[key]];
      rest := rest - {key};
    }
  }

  /** The positions [lo, hi) of `order` are sorted for the mode. */
  ghost predicate SortedRange(nodes: seq<Section>, sort: SortBy, order: seq<nat>, lo: nat, hi: nat)
    requires lo <= hi <= |order| && InRange(order, |nodes|)
  {
    forall p, q :: lo <= p < q < hi ==> !Before(sort, nodes[order[q]], nodes[order[p]])
  }

  /** Every section before position j may precede every one in (j, i]. */
  ghost predicate Crossed(nodes: seq<Section>, sort: SortBy, order: seq<nat>, j: nat, i: nat)
    requires j <= i < |order| && InRange(order, |nodes|)
  {
    forall p, q :: 0 <= p < j < q <= i ==> !Before(sort, nodes[order[q]], nodes[order[p]])
  }

  /** The element at j moves one place left past an element it goes before. */
  lemma SinkStep(nodes: seq<Section>, sort: SortBy, s: seq<nat>, j: nat, i: nat)
    requires InRange(s, |nodes|) && 0 < j <= i < |s|
    requires SortedRange(nodes, sort, s, 0, j) && SortedRange(nodes, sort, s, j, i + 1) && Crossed(nodes, sort, s, j, i)
    requires Before(sort, nodes[s[j]], nodes[s[j - 1]])
    ensures var t := s[j - 1 := s[j]][j := s[j - 1]];
            && InRange(t, |nodes|)
            && SortedRange(nodes, sort, t, 0, j - 1) && SortedRange(nodes, sort, t, j - 1, i + 1)
            && Crossed(nodes, sort, t, j - 1, i)
  {
  }

  /** The sinking element has reached its place: the prefix through i is sorted. */
  lemma SinkDone(nodes: seq<Section>, sort: SortBy, s: seq<nat>, j: nat, i: nat)
    requires InRange(s, |nodes|) && j <= i < |s|
    requires SortedRange(nodes, sort, s, 0, j) && SortedRange(nodes, sort, s, j, i + 1) && Crossed(nodes, sort, s, j, i)
    requires j == 0 || !Before(sort, nodes[s[j]], nodes[s[j - 1]])
    ensures SortedRange(nodes, sort, s, 0, i + 1)
  {
  }

  /** Sinks a[i] into the sorted prefix a[..i], as one pass of the sort. */
  method Insert(a: array<nat>, nodes: seq<Section>, sort: SortBy, i: nat)
    requires i < a.Length && InRange(a[..], |nodes|) && SortedRange(nodes, sort, a[..], 0, i)
    modifies a
    ensures multiset(a[..]) == multiset(old(a[..])) && a[i + 1..] == old(a[i + 1..])
    ensures InRange(a[..], |nodes|) && SortedRange(nodes, sort, a[..], 0, i + 1)
  {
    var j := i;
    while j > 0 && Before(sort, nodes[a[j]], nodes[a[j - 1]])
      invariant 0 <= j <= i
      invariant multiset(a[..]) == multiset(old(a[..])) && a[i + 1..] == old(a[i + 1..])
      invariant InRange(a[..], |nodes|)
      invariant SortedRange(nodes, sort, a[..], 0, j) && SortedRange(nodes, sort, a[..], j, i + 1)
      invariant Crossed(nodes, sort, a[..], j, i)
    {
      SinkStep(nodes, sort, a[..], j, i);
      a[j - 1], a[j] := a[j], a[j - 1];
      j := j - 1;
    }
    SinkDone(nodes, sort, a[..], j, i);
  }

  /**
   * The in-place std::sort of the children vector: afterwards it holds the
   * same sections, ordered by the mode's comparator.
   */
  method SortSections(a: array<nat>, nodes: seq<Section>, sort: SortBy)
    requires InRange(a[..], |nodes|)
    modifies a
    ensures multiset(a[..]) == multiset(old(a[..]))
    ensures InRange(a[..], |nodes|) && Sorted(nodes, sort, a[..])
  {
    var i := 0;
    while i < a.Length
      invariant 0 <= i <= a.Length
      invariant multiset(a[..]) == multiset(old(a[..]))
      invariant InRange(a[..], |nodes|) && SortedRange(nodes, sort, a[..], 0, i)
    {
      Insert(a, nodes, sort, i);
      i := i + 1;
    }
  }

  /** The first k children of `order` have been displayed: their plans and the rows each printed. */
  ghost predicate Built(nodes: seq<Section>, order: seq<nat>, prefix: string, sort: SortBy, parts: seq<seq<Row>>, subs: seq<Plan>, k: nat)
  {
    && k <= |order| && |parts| == k && |subs| == k && InRange(order, |nodes|)
    && forall m :: 0 <= m < k ==>
         && Follows(nodes, order[m], sort, subs[m])
         && parts[m] == Render(nodes, order[m], ChildPrefix(prefix, m == |order| - 1), sort, subs[m])
  }

  lemma BuiltStep(nodes: seq<Section>, order: seq<nat>, prefix: string, sort: SortBy, parts: seq<seq<Row>>, subs: seq<Plan>,
                  sub: seq<Row>, subPlan: Plan, k: nat)
    requires k < |order| && Built(nodes, order, prefix, sort, parts, subs, k)
    requires Follows(nodes, order[k], sort, subPlan)
    requires sub == Render(nodes, order[k], ChildPrefix(prefix, k == |order| - 1), sort, subPlan)
    ensures Built(nodes, order, prefix, sort, parts + [sub], subs + [subPlan], k + 1)
    ensures Level(nodes, order, prefix, parts + [sub], k + 1) == Level(nodes, order, prefix, parts, k) + [RowOf(prefix, nodes, order[k])] + sub
  {
    var parts', subs' := parts + [sub], subs + [subPlan];
    forall m | 0 <= m < k + 1
      ensures Follows(nodes, order[m], sort, subs'[m])
      ensures parts'[m] == Render(nodes, order[m], ChildPrefix(prefix, m == |order| - 1), sort, subs'[m])
    {
      if m < k {
        assert parts'[m] == parts[m] && subs'[m] == subs[m];
      }
    }
    LevelPrefix(nodes, order, prefix, parts, [sub], k);
    assert parts'[k] == sub;
  }

  /** Once every child is displayed, the plans assemble into the plan of section i. */
  lemma BuiltPlan(nodes: seq<Section>, i: nat, prefix: string, sort: SortBy, plan: Plan, parts: seq<seq<Row>>)
    requires i < |nodes| && IsDisplayOrder(nodes, i, sort, plan.order)
    requires forall k :: 0 <= k < |plan.order| ==> i < plan.order[k]
    requires Built(nodes, plan.order, prefix, sort, parts, plan.subs, |plan.order|)
    ensures Follows(nodes, i, sort, plan)
    ensures InRange(plan.order, |nodes|)
    ensures Level(nodes, plan.order, prefix, parts, |plan.order|) == Render(nodes, i, prefix, sort, plan)
  {
    assert parts == Blocks(nodes, prefix, sort, plan);
  }

  /**
   * The children of section i gathered into a vector and sorted in place:
   * each child once, in a display order for the mode.
   */
  method SortedChildren(nodes: seq<Section>, i: nat, sort: SortBy) returns (order: seq<nat>)
    requires ValidTree(nodes) && i < |nodes|
    ensures IsDisplayOrder(nodes, i, sort, order)
    ensures forall k :: 0 <= k < |order| ==> i < order[k] < |nodes|
  {
    ChildMapInjective(nodes, i);
    var vect := ChildrenVector(nodes[i].children);
    ChildrenAfter(nodes, i, vect);
    var a := new nat[|vect|](k requires 0 <= k < |vect| => vect[k]);
    assert a[..] == vect;
    SortSections(a, nodes, sort);
    order := a[..];
    ChildrenAfter(nodes, i, order);
  }

  /**
   * DProfileSection::Display on section i with the given prefix: the rows
   * it prints, in order, under the display orders its sorts chose.
   */
  method DisplaySection(nodes: seq<Section>, i: nat, prefix: string, sort: SortBy) returns (rows: seq<Row>, ghost plan: Plan)
    requires ValidTree(nodes) && i < |nodes|
    ensures Follows(nodes, i, sort, plan) && rows == Render(nodes, i, prefix, sort, plan)
    ensures RowsShow(nodes, rows, i)
    decreases |nodes| - i, 1
  {
    var order := SortedChildren(nodes, i, sort);
    ghost var subs;
    ghost var parts;
    rows, parts, subs := DisplayChildren(nodes, i, order, prefix, sort);
    plan := Plan(order, subs);
    BuiltPlan(nodes, i, prefix, sort, plan, parts);
    RenderRowsShow(nodes, i, prefix, sort, plan);
  }

  /**
   * The loop of Display over the sorted children: each child's row, then
   * the rows of that child's own Display under its child prefix.
   */
  method DisplayChildren(nodes: seq<Section>, i: nat, order: seq<nat>, prefix: string, sort: SortBy)
    returns (rows: seq<Row>, ghost parts: seq<seq<Row>>, ghost subs: seq<Plan>)
    requires ValidTree(nodes) && i < |nodes|
    requires forall k :: 0 <= k < |order| ==> i < order[k] < |nodes|
    ensures Built(nodes, order, prefix, sort, parts, subs, |order|) && rows == Level(nodes, order, prefix, parts, |order|)
    decreases |nodes| - i, 0
  {
    rows := [];
    parts := [];
    subs := [];
    var k := 0;
    while k < |order|
      invariant Built(nodes, order, prefix, sort, parts, subs, k) && rows == Level(nodes, order, prefix, parts, k)
    {
      var sect := order[k];
      var sub, subPlan := DisplaySection(nodes, sect, ChildPrefix(prefix, k == |order| - 1), sort);
      BuiltStep(nodes, order, prefix, sort, parts, subs, sub, subPlan, k);
      rows := rows + [RowOf(prefix, nodes, sect)] + sub;
      parts := parts + [sub];
      subs := subs + [subPlan];
      k := k + 1;
    }
  }
}
