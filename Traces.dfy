/**
 * Sequences of SectionPush/SectionPop calls made by one thread, run against
 * its context: the stack discipline, the identity of sections across
 * repeated pushes, and accumulation of samples into one section.
 */
module Traces {
  import opened Sections
  import opened ContextModel

  /** One profiler call made by the thread, with the clock reading it sees. */
  datatype Call = PushCall(name: string, now: int) | PopCall(now: int)

  lemma ExtendsTransitive(a: seq<Section>, b: seq<Section>, c: seq<Section>)
    requires Extends(a, b) && Extends(b, c)
    ensures Extends(a, c)
  {
  }

  /**
   * One call against a context; `next` is the global execution-order counter,
   * which only a created section advances.
   */
  function Step(st: ContextState, next: int, call: Call): (r: (ContextState, int))
    requires Valid(st)
    ensures Valid(r.0) && Extends(st.nodes, r.0.nodes)
    ensures IdsIncreasing(st.nodes) && IdsBelow(st.nodes, next) ==>
              IdsIncreasing(r.0.nodes) && IdsBelow(r.0.nodes, r.1) && next <= r.1
  {
    match call
    case PushCall(name, now) =>
      (Push(st, name, now, next), if Creates(st, name) then next + 1 else next)
    case PopCall(now) =>
      (Pop(st, now), next)
  }

  /** The calls in order. */
  function Run(st: ContextState, next: int, calls: seq<Call>): (r: (ContextState, int))
    requires Valid(st)
    ensures Valid(r.0) && Extends(st.nodes, r.0.nodes)
    ensures IdsIncreasing(st.nodes) && IdsBelow(st.nodes, next) ==>
              IdsIncreasing(r.0.nodes) && IdsBelow(r.0.nodes, r.1) && next <= r.1
    decreases |calls|
  {
    if calls == [] then
      (st, next)
    else
      var s := Step(st, next, calls[0]);
      var r := Run(s.0, s.1, calls[1..]);
      ExtendsTransitive(st.nodes, s.0.nodes, r.0.nodes);
      r
  }

  /** Walks `d` parent links up from section c; None when the top level is passed. */
  function Up(nodes: seq<Section>, c: nat, d: nat): Option<nat>
    decreases d
  {
    if c >= |nodes| then None
    else if d == 0 then Some(c)
    else match nodes[c].parent
      case None => None
      case Some(p) => Up(nodes, p, d - 1)
  }

  /** Parent walks from an existing section do not change when the arena grows. */
  lemma {:induction false} UpStable(a: seq<Section>, b: seq<Section>, c: nat, d: nat)
    requires ValidTree(a) && Extends(a, b) && c < |a|
    ensures Up(b, c, d) == Up(a, c, d)
    decreases d
  {
    if d > 0 && c > 0 {
      assert ParentLinked(a, c);
      UpStable(a, b, a[c].parent.value, d - 1);
    }
  }

  /**
   * Calls that never pop more than they pushed, given `open` sections
   * already open, and end with all of them closed.
   */
  predicate Nested(calls: seq<Call>, open: nat)
    decreases |calls|
  {
    if calls == [] then open == 0
    else match calls[0]
      case PushCall(_, _) => Nested(calls[1..], open + 1)
      case PopCall(_) => open > 0 && Nested(calls[1..], open - 1)
  }

  /**
   * Stack discipline: strictly nested calls leave the cursor on the section
   * that was `open` levels above it at the start, i.e. every pop returns to
   * the section that was current at its matching push.
   */
  lemma {:induction false} NestedRunReturns(st: ContextState, next: int, calls: seq<Call>, open: nat, base: nat)
    requires Valid(st) && Nested(calls, open) && Up(st.nodes, st.current, open) == Some(base)
    ensures Run(st, next, calls).0.current == base
    decreases |calls|
  {
    if calls != [] {
      var s := Step(st, next, calls[0]);
      match calls[0]
      case PushCall(name, now) =>
        assert Up(s.0.nodes, s.0.current, open + 1) == Up(s.0.nodes, st.current, open);
        UpStable(st.nodes, s.0.nodes, st.current, open);
        NestedRunReturns(s.0, s.1, calls[1..], open + 1, base);
      case PopCall(now) =>
        var p := st.nodes[st.current].parent.value;
        assert Up(st.nodes, p, open - 1) == Some(base);
        UpStable(st.nodes, s.0.nodes, p, open - 1);
        NestedRunReturns(s.0, s.1, calls[1..], open - 1, base);
    }
  }

  lemma {:induction false} NestedThenPop(calls: seq<Call>, open: nat, now: int)
    requires Nested(calls, open)
    ensures Nested(calls + [PopCall(now)], open + 1)
    decreases |calls|
  {
    if calls != [] {
      assert (calls + [PopCall(now)])[1..] == calls[1..] + [PopCall(now)];
      match calls[0]
      case PushCall(_, _) => NestedThenPop(calls[1..], open + 1, now);
      case PopCall(_) => NestedThenPop(calls[1..], open - 1, now);
    }
  }

  /**
   * FFunctionProfiler: a block bracketed by a push of its label and a pop,
   * whose own profiling is strictly nested, leaves the cursor where it found it.
   */
  lemma GuardedBlockRestoresCursor(st: ContextState, next: int, blockName: string, enter: int, body: seq<Call>, exit: int)
    requires Valid(st) && Nested(body, 0)
    ensures Run(st, next, [PushCall(blockName, enter)] + body + [PopCall(exit)]).0.current == st.current
  {
    var calls := [PushCall(blockName, enter)] + body + [PopCall(exit)];
    NestedThenPop(body, 0, exit);
    assert calls[1..] == body + [PopCall(exit)];
    NestedRunReturns(st, next, calls, 0, st.current);
  }

  /** A section is identified by its parent and its name. */
  lemma SectionIdentity(nodes: seq<Section>, x: nat, y: nat)
    requires ValidTree(nodes) && 0 < x < |nodes| && 0 < y < |nodes|
    ensures nodes[x].parent == nodes[y].parent && nodes[x].name == nodes[y].name <==> x == y
  {
    assert ParentLinked(nodes, x) && ParentLinked(nodes, y);
  }

  /** One timed run of a section: pushed at `start`, popped at `end`. */
  datatype Span = Span(start: int, end: int)

  /** Push `name` and pop it again, once per span. */
  function Cycles(name: string, spans: seq<Span>): seq<Call>
    decreases |spans|
  {
    if spans == [] then [] else [PushCall(name, spans[0].start), PopCall(spans[0].end)] + Cycles(name, spans[1..])
  }

  function Durations(spans: seq<Span>): seq<real>
    decreases |spans|
  {
    if spans == [] then [] else [(spans[0].end - spans[0].start) as real] + Durations(spans[1..])
  }

  ghost predicate SameStats(a: Section, b: Section)
  {
    a.callCount == b.callCount && a.avgTime == b.avgTime
  }

  lemma {:induction false} FoldAllRespectsStats(a: Section, b: Section, samples: seq<real>)
    requires SameStats(a, b)
    ensures SameStats(FoldAll(a, samples), FoldAll(b, samples))
    decreases |samples|
  {
    if samples != [] {
      FoldAllRespectsStats(Fold(a, samples[0]), Fold(b, samples[0]), samples[1..]);
    }
  }

  lemma RunCycles(st: ContextState, next: int, name: string, spans: seq<Span>)
    requires Valid(st) && spans != []
    ensures var s1 := Push(st, name, spans[0].start, next);
            var n1 := if Creates(st, name) then next + 1 else next;
            Run(st, next, Cycles(name, spans)) == Run(Pop(s1, spans[0].end), n1, Cycles(name, spans[1..]))
  {
    var calls := Cycles(name, spans);
    assert calls[0] == PushCall(name, spans[0].start);
    assert calls[1..][0] == PopCall(spans[0].end);
    assert calls[1..][1..] == Cycles(name, spans[1..]);
  }

  /**
   * From `st` to `r` the cursor and its child map are back where they were,
   * section c folded in `samples` and no other section's statistics moved.
   */
  ghost predicate Accumulated(st: ContextState, r: ContextState, c: nat, samples: seq<real>)
  {
    && st.current < |st.nodes| && c < |st.nodes|
    && r.current == st.current && |r.nodes| == |st.nodes|
    && r.nodes[st.current].children == st.nodes[st.current].children
    && SameStats(r.nodes[c], FoldAll(st.nodes[c], samples))
    && forall j :: 0 <= j < |st.nodes| && j != c ==> SameStats(r.nodes[j], st.nodes[j])
  }

  /** One sample folded in, then the rest, is all of them folded in. */
  lemma AccumulatedCompose(a: ContextState, b: ContextState, r: ContextState, c: nat, d0: real, rest: seq<real>)
    requires Accumulated(a, b, c, [d0]) && Accumulated(b, r, c, rest)
    ensures Accumulated(a, r, c, [d0] + rest)
  {
    assert [d0][1..] == [] && ([d0] + rest)[1..] == rest;
    assert FoldAll(a.nodes[c], [d0]) == FoldAll(Fold(a.nodes[c], d0), []);
    FoldAllRespectsStats(b.nodes[c], Fold(a.nodes[c], d0), rest);
  }

  /** One push/pop cycle of an existing child folds the duration into it and returns the cursor. */
  lemma OneCycle(st: ContextState, next: int, name: string, span: Span, r: ContextState, c: nat, d: real)
    requires Valid(st) && !Creates(st, name)
    requires r == Pop(Push(st, name, span.start, next), span.end)
    requires c == st.nodes[st.current].children[name] && d == (span.end - span.start) as real
    ensures Accumulated(st, r, c, [d])
  {
    assert ChildLinked(st.nodes, st.current, name);
  }

  /**
   * Repeating push/pop of a name whose section already exists under the
   * cursor (one cycle per frame of a loop) folds every cycle's duration into
   * that same section, touches no other section's statistics, and leaves the
   * cursor where it was.
   */
  lemma {:induction false} RepeatedSectionAccumulates(st: ContextState, next: int, name: string, spans: seq<Span>)
    requires Valid(st) && !Creates(st, name)
    ensures Accumulated(st, Run(st, next, Cycles(name, spans)).0, st.nodes[st.current].children[name], Durations(spans))
    decreases |spans|
  {
    var c := st.nodes[st.current].children[name];
    if spans == [] {
      assert Run(st, next, Cycles(name, spans)).0 == st;
    } else {
      var d0 := (spans[0].end - spans[0].start) as real;
      var rest := Durations(spans[1..]);
      assert Durations(spans) == [d0] + rest;
      var s2 := ExistingCycle(st, next, name, spans, c, d0);
      var r := Run(s2, next, Cycles(name, spans[1..])).0;
      RepeatedSectionAccumulates(s2, next, name, spans[1..]);
      AccumulatedCompose(st, s2, r, c, d0, rest);
    }
  }

  /** The first cycle of a run of cycles over an existing child, taken on its own. */
  lemma ExistingCycle(st: ContextState, next: int, name: string, spans: seq<Span>, c: nat, d0: real) returns (s2: ContextState)
    requires Valid(st) && !Creates(st, name) && spans != []
    requires c == st.nodes[st.current].children[name] && d0 == (spans[0].end - spans[0].start) as real
    ensures Valid(s2) && s2.current == st.current && s2.nodes[s2.current].children == st.nodes[st.current].children
    ensures Accumulated(st, s2, c, [d0])
    ensures Run(st, next, Cycles(name, spans)) == Run(s2, next, Cycles(name, spans[1..]))
  {
    s2 := Pop(Push(st, name, spans[0].start, next), spans[0].end);
    RunCycles(st, next, name, spans);
    OneCycle(st, next, name, spans[0], s2, c, d0);
  }

  /** The first push/pop cycle of a new name creates its section holding that one sample. */
  lemma FirstCycle(st: ContextState, next: int, name: string, span: Span, r: ContextState, d: real)
    requires Valid(st) && Creates(st, name)
    requires r == Pop(Push(st, name, span.start, next), span.end) && d == (span.end - span.start) as real
    ensures && r.current == st.current && |r.nodes| == |st.nodes| + 1
            && !Creates(r, name) && r.nodes[st.current].children[name] == |st.nodes|
            && SameStats(r.nodes[|st.nodes|], Fold(NewSection(next), d))
  {
  }

  /**
   * The first use of a name at a position creates its section; after N
   * push/pop cycles it holds call count N and the mean of the N durations.
   */
  lemma FirstUseAccumulatesMean(st: ContextState, next: int, name: string, spans: seq<Span>)
    requires Valid(st) && Creates(st, name) && |spans| > 0
    ensures var r := Run(st, next, Cycles(name, spans)).0;
            && r.current == st.current
            && r.nodes[st.current].children[name] == |st.nodes|
            && r.nodes[|st.nodes|].callCount == |spans|
            && r.nodes[|st.nodes|].avgTime == Sum(Durations(spans)) / |spans| as real
  {
    var c := |st.nodes|;
    var d0 := (spans[0].end - spans[0].start) as real;
    var rest := Durations(spans[1..]);
    assert Durations(spans) == [d0] + rest;
    var s2 := CreatingCycle(st, next, name, spans, d0);
    var r := Run(s2, next + 1, Cycles(name, spans[1..])).0;
    RepeatedSectionAccumulates(s2, next + 1, name, spans[1..]);
    assert Accumulated(s2, r, c, rest);
    FoldAllRespectsStats(s2.nodes[c], Fold(NewSection(next), d0), rest);
    assert FoldAll(NewSection(next), Durations(spans)) == FoldAll(Fold(NewSection(next), d0), rest);
    DurationsLength(spans);
    FoldAllIsMean(NewSection(next), Durations(spans));
  }

  /** The first cycle of a run of cycles over a new name, taken on its own. */
  lemma CreatingCycle(st: ContextState, next: int, name: string, spans: seq<Span>, d0: real) returns (s2: ContextState)
    requires Valid(st) && Creates(st, name) && spans != []
    requires d0 == (spans[0].end - spans[0].start) as real
    ensures Valid(s2) && s2.current == st.current && |s2.nodes| == |st.nodes| + 1
    ensures !Creates(s2, name) && s2.nodes[st.current].children[name] == |st.nodes|
    ensures SameStats(s2.nodes[|st.nodes|], Fold(NewSection(next), d0))
    ensures Run(st, next, Cycles(name, spans)) == Run(s2, next + 1, Cycles(name, spans[1..]))
  {
    s2 := Pop(Push(st, name, spans[0].start, next), spans[0].end);
    RunCycles(st, next, name, spans);
    FirstCycle(st, next, name, spans[0], s2, d0);
  }

  lemma {:induction false} DurationsLength(spans: seq<Span>)
    ensures |Durations(spans)| == |spans|
    decreases |spans|
  {
    if spans != [] { DurationsLength(spans[1..]); }
  }
}
