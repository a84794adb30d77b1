/**
 * One thread's section tree (DProfileContext) as a value: an arena of
 * sections whose entry 0 is the synthetic top-level section, and a cursor.
 * Push and Pop are what DProfiler::SectionPush and DProfiler::SectionPop do
 * to the context that GetContext resolved.
 */
module ContextModel {
  import opened Sections

  /** Arena index of the top-level section. */
  const Root: nat := 0

  datatype ContextState = ContextState(nodes: seq<Section>, current: nat)

  /** Section j is registered in its parent's child map under its own name. */
  ghost predicate ParentLinked(nodes: seq<Section>, j: nat)
    requires j < |nodes|
  {
    && nodes[j].parent.Some?
    && nodes[j].parent.value < j
    && nodes[j].name in nodes[nodes[j].parent.value].children
    && nodes[nodes[j].parent.value].children[nodes[j].name] == j
  }

  /** The child of j registered under `name` points back at j and carries that name. */
  ghost predicate ChildLinked(nodes: seq<Section>, j: nat, name: string)
    requires j < |nodes| && name in nodes[j].children
  {
    var c := nodes[j].children[name];
    j < c < |nodes| && nodes[c].parent == Some(j) && nodes[c].name == name
  }

  /**
   * The arena is a tree rooted at entry 0: only the root has no parent,
   * parents come before their children, and the child maps and the parent
   * links describe the same edges.
   */
  ghost predicate ValidTree(nodes: seq<Section>)
  {
    && |nodes| > 0
    && nodes[Root].parent == None
    && (forall j :: 0 < j < |nodes| ==> ParentLinked(nodes, j))
    && (forall j, name :: 0 <= j < |nodes| && name in nodes[j].children ==> ChildLinked(nodes, j, name))
  }

  ghost predicate Valid(st: ContextState)
  {
    ValidTree(st.nodes) && st.current < |st.nodes|
  }

  /** Sections created later carry larger execution-order ids. */
  ghost predicate IdsIncreasing(nodes: seq<Section>)
  {
    forall i, j :: 0 <= i < j < |nodes| ==> nodes[i].execOrderId < nodes[j].execOrderId
  }

  /** Every id in the arena is below the global counter. */
  ghost predicate IdsBelow(nodes: seq<Section>, bound: int)
  {
    forall j :: 0 <= j < |nodes| ==> nodes[j].execOrderId < bound
  }

  /** Parents and names of existing sections are kept and child maps only grow. */
  ghost predicate Extends(a: seq<Section>, b: seq<Section>)
  {
    && |a| <= |b|
    && forall j :: 0 <= j < |a| ==>
         && b[j].parent == a[j].parent
         && b[j].name == a[j].name
         && b[j].execOrderId == a[j].execOrderId
         && a[j].children.Keys <= b[j].children.Keys
         && (forall n :: n in a[j].children ==> b[j].children[n] == a[j].children[n])
  }

  /** A fresh context: just the top-level section, with the cursor on it. */
  function NewContext(id: int): (st: ContextState)
    ensures Valid(st) && st.current == Root && |st.nodes| == 1
    ensures st.nodes[Root].children == map[] && st.nodes[Root].callCount == 0
    ensures IdsIncreasing(st.nodes) && IdsBelow(st.nodes, id + 1) && st.nodes[Root].execOrderId == id
  {
    ContextState([NewSection(id)], Root)
  }

  /** Whether a push of `name` has to create a section. */
  predicate Creates(st: ContextState, name: string)
    requires st.current < |st.nodes|
  {
    name !in st.nodes[st.current].children
  }

  /**
   * SectionPush on a resolved context: reuse or create the cursor's child
   * named `name` (a created one takes execution-order id `id`), move the
   * cursor down to it and stamp its start time.
   */
  function Push(st: ContextState, name: string, now: int, id: int): (r: ContextState)
    requires Valid(st)
    ensures Valid(r) && Extends(st.nodes, r.nodes)
    ensures r.nodes[r.current].parent == Some(st.current) && r.nodes[r.current].name == name
    ensures r.nodes[r.current].timer == now
    ensures !Creates(st, name) ==> r.current == st.nodes[st.current].children[name] && |r.nodes| == |st.nodes|
    ensures Creates(st, name) ==>
              && r.current == |st.nodes| && |r.nodes| == |st.nodes| + 1
              && r.nodes[r.current].callCount == 0 && r.nodes[r.current].avgTime == 0.0
              && r.nodes[r.current].children == map[] && r.nodes[r.current].execOrderId == id
    ensures forall j :: 0 <= j < |st.nodes| ==>
              r.nodes[j].callCount == st.nodes[j].callCount && r.nodes[j].avgTime == st.nodes[j].avgTime
    ensures forall j :: 0 <= j < |st.nodes| && j != st.current ==> r.nodes[j].children == st.nodes[j].children
    ensures r.nodes[st.current].children == st.nodes[st.current].children[name := r.current]
    ensures forall j :: 0 <= j < |st.nodes| && j != r.current ==> r.nodes[j].timer == st.nodes[j].timer
  {
    var cur := st.nodes[st.current];
    if name in cur.children then
      var c := cur.children[name];
      var r := ContextState(st.nodes[c := st.nodes[c].(timer := now)], c);
      PushReuses(st, name, now, r);
      r
    else
      var child := NewSection(id).(name := name, parent := Some(st.current), timer := now);
      var r := ContextState(st.nodes[st.current := cur.(children := cur.children[name := |st.nodes|])] + [child], |st.nodes|);
      PushAppends(st, name, now, id, r);
      r
  }

  /** Push of a name the cursor already has a child for: only that child's timer changes. */
  lemma PushReuses(st: ContextState, name: string, now: int, r: ContextState)
    requires Valid(st) && !Creates(st, name)
    requires var c := st.nodes[st.current].children[name];
             c < |st.nodes| && r == ContextState(st.nodes[c := st.nodes[c].(timer := now)], c)
    ensures Valid(r) && Extends(st.nodes, r.nodes) && |r.nodes| == |st.nodes|
    ensures r.current == st.nodes[st.current].children[name]
    ensures r.nodes[r.current].parent == Some(st.current) && r.nodes[r.current].name == name
    ensures r.nodes[r.current].timer == now
    ensures forall j :: 0 <= j < |st.nodes| ==>
              && r.nodes[j].callCount == st.nodes[j].callCount && r.nodes[j].avgTime == st.nodes[j].avgTime
              && r.nodes[j].children == st.nodes[j].children
    ensures forall j :: 0 <= j < |st.nodes| && j != r.current ==> r.nodes[j].timer == st.nodes[j].timer
  {
    assert ChildLinked(st.nodes, st.current, name);
    SameShapeIsTree(st.nodes, r.nodes);
  }

  /** Push of a new name: a section with id `id` is appended under the cursor. */
  lemma PushAppends(st: ContextState, name: string, now: int, id: int, r: ContextState)
    requires Valid(st) && Creates(st, name)
    requires var cur := st.nodes[st.current];
             var child := NewSection(id).(name := name, parent := Some(st.current), timer := now);
             r == ContextState(st.nodes[st.current := cur.(children := cur.children[name := |st.nodes|])] + [child], |st.nodes|)
    ensures Valid(r) && Extends(st.nodes, r.nodes)
    ensures r.current == |st.nodes| && |r.nodes| == |st.nodes| + 1
    ensures r.nodes[r.current].parent == Some(st.current) && r.nodes[r.current].name == name
    ensures r.nodes[r.current].timer == now
    ensures r.nodes[r.current].callCount == 0 && r.nodes[r.current].avgTime == 0.0
    ensures r.nodes[r.current].children == map[] && r.nodes[r.current].execOrderId == id
    ensures forall j :: 0 <= j < |st.nodes| ==>
              && r.nodes[j].callCount == st.nodes[j].callCount && r.nodes[j].avgTime == st.nodes[j].avgTime
              && r.nodes[j].timer == st.nodes[j].timer
    ensures forall j :: 0 <= j < |st.nodes| && j != st.current ==> r.nodes[j].children == st.nodes[j].children
    ensures r.nodes[st.current].children == st.nodes[st.current].children[name := r.current]
  {
    PushCreatedIsTree(st, name, r.nodes[|st.nodes|], r);
  }

  lemma PushCreatedIsTree(st: ContextState, name: string, child: Section, r: ContextState)
    requires Valid(st) && Creates(st, name)
    requires child.parent == Some(st.current) && child.name == name && child.children == map[]
    requires r.current == |st.nodes|
    requires r.nodes == st.nodes[st.current := st.nodes[st.current].(children := st.nodes[st.current].children[name := r.current])] + [child]
    ensures ValidTree(r.nodes)
  {
    var n := |st.nodes|;
    forall j | 0 < j < |r.nodes| ensures ParentLinked(r.nodes, j) {
      if j < n {
        assert ParentLinked(st.nodes, j);
        var p := st.nodes[j].parent.value;
        if p == st.current {
          assert st.nodes[j].name != name;
        }
      }
    }
    forall j, m | 0 <= j < |r.nodes| && m in r.nodes[j].children ensures ChildLinked(r.nodes, j, m) {
      if j != st.current || m != name {
        assert ChildLinked(st.nodes, j, m);
      }
    }
  }

  /** Changing only statistics and timers keeps an arena a tree. */
  lemma SameShapeIsTree(a: seq<Section>, b: seq<Section>)
    requires ValidTree(a) && |a| == |b|
    requires forall j :: 0 <= j < |a| ==> b[j].parent == a[j].parent && b[j].name == a[j].name && b[j].children == a[j].children
    ensures ValidTree(b)
  {
    forall j | 0 < j < |b| ensures ParentLinked(b, j) {
      assert ParentLinked(a, j);
    }
    forall j, m | 0 <= j < |b| && m in b[j].children ensures ChildLinked(b, j, m) {
      assert ChildLinked(a, j, m);
    }
  }

  /** The elapsed time a pop at `now` records for the open section `s`. */
  function Elapsed(s: Section, now: int): real
  {
    (now - s.timer) as real
  }

  /**
   * SectionPop on a resolved context: at the top level nothing happens;
   * otherwise the open section folds in the time since its push and the
   * cursor moves back to its parent.
   */
  function Pop(st: ContextState, now: int): (r: ContextState)
    requires Valid(st)
    ensures Valid(r) && Extends(st.nodes, r.nodes) && |r.nodes| == |st.nodes|
    ensures r == st <==> st.current == Root
    ensures st.current != Root ==>
              && st.nodes[st.current].parent.Some?
              && r.current == st.nodes[st.current].parent.value
              && r.nodes[st.current] == Fold(st.nodes[st.current], Elapsed(st.nodes[st.current], now))
              && forall j :: 0 <= j < |st.nodes| && j != st.current ==> r.nodes[j] == st.nodes[j]
  {
    var s := st.nodes[st.current];
    assert st.current != Root ==> ParentLinked(st.nodes, st.current);
    if s.parent == None then
      st
    else
      assert ParentLinked(st.nodes, st.current);
      var r := ContextState(st.nodes[st.current := Fold(s, Elapsed(s, now))], s.parent.value);
      SameShapeIsTree(st.nodes, r.nodes);
      r
  }
}
