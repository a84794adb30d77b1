/**
 * Whole usage patterns of the profiler: the nested example from the
 * header's documentation, a profiling block guarded by FFunctionProfiler,
 * profiling after Clear, and the sign of the recorded averages.
 */
module Scenarios {
  import opened Sections
  import opened ContextModel
  import opened Traces
  import RegistryModel

  /**
   * Pushing a new name and popping it again leaves the cursor where it was
   * and adds one section under it, holding that one sample; only the
   * cursor's child map changes among the existing sections.
   */
  lemma NewChildCycle(st: ContextState, name: string, start: int, end: int, id: int, r: ContextState)
    requires Valid(st) && Creates(st, name)
    requires r == Pop(Push(st, name, start, id), end)
    ensures var n := |st.nodes|;
            && Valid(r) && r.current == st.current && |r.nodes| == n + 1
            && r.nodes[st.current] == st.nodes[st.current].(children := st.nodes[st.current].children[name := n])
            && (forall j :: 0 <= j < n && j != st.current ==> r.nodes[j] == st.nodes[j])
            && r.nodes[n].children == map[]
            && r.nodes[n].callCount == 1 && Total(r.nodes[n]) == (end - start) as real
  {
    var p := Push(st, name, start, id);
    assert p.current == |st.nodes| != Root;
  }

  /**
   * The inside of the documented nested example: under a cursor with no
   * children, "step 1" and then "step 2" are each pushed and popped once.
   */
  lemma TwoSteps(a: ContextState, id: int, t1: int, t2: int, t3: int, t4: int, m: ContextState, r: ContextState)
    requires Valid(a) && a.nodes[a.current].children == map[]
    requires m == Pop(Push(a, "step 1", t1, id), t2)
    requires r == Pop(Push(m, "step 2", t3, id + 1), t4)
    ensures var n := |a.nodes|;
            && Valid(r) && r.current == a.current && |r.nodes| == n + 2
            && r.nodes[a.current] == a.nodes[a.current].(children := map["step 1" := n, "step 2" := n + 1])
            && (forall j :: 0 <= j < n && j != a.current ==> r.nodes[j] == a.nodes[j])
            && r.nodes[n].callCount == 1 && Total(r.nodes[n]) == (t2 - t1) as real
            && r.nodes[n + 1].callCount == 1 && Total(r.nodes[n + 1]) == (t4 - t3) as real
  {
    NewChildCycle(a, "step 1", t1, t2, id, m);
    NewChildCycle(m, "step 2", t3, t4, id + 1, r);
  }

  /**
   * The nested example of the header's documentation up to its last pop:
   * "two-step process" is open with its two steps run once each.
   */
  lemma StepsInsideOuter(st: ContextState, id: int, t0: int, t1: int, t2: int, t3: int, t4: int,
                         outer: ContextState, first: ContextState, steps: ContextState)
    requires Valid(st) && Creates(st, "two-step process")
    requires outer == Push(st, "two-step process", t0, id)
    requires first == Pop(Push(outer, "step 1", t1, id + 1), t2)
    requires steps == Pop(Push(first, "step 2", t3, id + 2), t4)
    ensures var p := |st.nodes|;
            && Valid(steps) && steps.current == p && |steps.nodes| == p + 3
            && steps.nodes[st.current].children == st.nodes[st.current].children["two-step process" := p]
            && steps.nodes[p].children == map["step 1" := p + 1, "step 2" := p + 2]
            && steps.nodes[p].parent == Some(st.current) && steps.nodes[p].timer == t0
            && steps.nodes[p].callCount == 0 && Total(steps.nodes[p]) == 0.0
            && steps.nodes[p + 1].callCount == 1 && Total(steps.nodes[p + 1]) == (t2 - t1) as real
            && steps.nodes[p + 2].callCount == 1 && Total(steps.nodes[p + 2]) == (t4 - t3) as real
  {
    OuterOpened(st, id, t0, outer);
    TwoSteps(outer, id + 1, t1, t2, t3, t4, first, steps);
  }

  /** The first push of the nested example opens a new, empty section under the cursor. */
  lemma OuterOpened(st: ContextState, id: int, t0: int, outer: ContextState)
    requires Valid(st) && Creates(st, "two-step process")
    requires outer == Push(st, "two-step process", t0, id)
    ensures var p := |st.nodes|;
            && Valid(outer) && outer.current == p && |outer.nodes| == p + 1
            && outer.nodes[st.current].children == st.nodes[st.current].children["two-step process" := p]
            && outer.nodes[p].children == map[] && outer.nodes[p].parent == Some(st.current)
            && outer.nodes[p].timer == t0 && outer.nodes[p].callCount == 0 && Total(outer.nodes[p]) == 0.0
  {
  }

  /**
   * The nested example of the header's documentation on a context whose
   * cursor has no "two-step process" child yet: push "two-step process",
   * push and pop "step 1", push and pop "step 2", pop. Afterwards the cursor
   * is back, "two-step process" is one new section under it whose children
   * are exactly "step 1" and "step 2", each run once, and with a clock that
   * never goes back the outer section's time covers both steps.
   */
  lemma NestedExample(st: ContextState, id: int, t0: int, t1: int, t2: int, t3: int, t4: int, t5: int,
                      outer: ContextState, first: ContextState, steps: ContextState, r: ContextState)
    requires Valid(st) && Creates(st, "two-step process")
    requires t0 <= t1 <= t2 <= t3 <= t4 <= t5
    requires outer == Push(st, "two-step process", t0, id)
    requires first == Pop(Push(outer, "step 1", t1, id + 1), t2)
    requires steps == Pop(Push(first, "step 2", t3, id + 2), t4)
    requires r == Pop(steps, t5)
    ensures var p := |st.nodes|;
            && r.current == st.current && |r.nodes| == p + 3
            && r.nodes[st.current].children == st.nodes[st.current].children["two-step process" := p]
            && r.nodes[p].children == map["step 1" := p + 1, "step 2" := p + 2]
            && r.nodes[p].callCount == 1 && Total(r.nodes[p]) == (t5 - t0) as real
            && r.nodes[p + 1].callCount == 1 && Total(r.nodes[p + 1]) == (t2 - t1) as real
            && r.nodes[p + 2].callCount == 1 && Total(r.nodes[p + 2]) == (t4 - t3) as real
            && Total(r.nodes[p]) >= Total(r.nodes[p + 1]) + Total(r.nodes[p + 2])
  {
    StepsInsideOuter(st, id, t0, t1, t2, t3, t4, outer, first, steps);
  }

  /** No section holds a negative average. */
  ghost predicate AveragesNonNegative(st: ContextState)
  {
    forall j :: 0 <= j < |st.nodes| ==> st.nodes[j].avgTime >= 0.0
  }

  /**
   * No section's start stamp is later than t. The top-level section is left
   * out: it is never pushed, so its stamp is never read.
   */
  ghost predicate StampsUpTo(st: ContextState, t: int)
  {
    forall j :: 0 < j < |st.nodes| ==> st.nodes[j].timer <= t
  }

  /** The clock readings of the calls never go back, starting from t. */
  predicate ClockFrom(calls: seq<Call>, t: int)
    decreases |calls|
  {
    calls == [] || (t <= calls[0].now && ClockFrom(calls[1..], calls[0].now))
  }

  /** One call with a clock reading no earlier than every stamp keeps both properties. */
  lemma StepKeepsAveragesNonNegative(st: ContextState, next: int, call: Call, t: int)
    requires Valid(st) && AveragesNonNegative(st) && StampsUpTo(st, t) && t <= call.now
    ensures AveragesNonNegative(Step(st, next, call).0) && StampsUpTo(Step(st, next, call).0, call.now)
  {
    match call
    case PushCall(name, now) =>
      if !Creates(st, name) {
        assert ChildLinked(st.nodes, st.current, name);
      }
    case PopCall(now) =>
      if st.current != Root {
        var s := st.nodes[st.current];
        FoldKeepsAverageNonNegative(s, Elapsed(s, now));
      }
  }

  /**
   * With a clock that never goes back, every average the profiler records
   * stays non-negative: each sample is the time between a section's push
   * and its pop.
   */
  lemma {:induction false} RunKeepsAveragesNonNegative(st: ContextState, next: int, calls: seq<Call>, t: int)
    requires Valid(st) && AveragesNonNegative(st) && StampsUpTo(st, t) && ClockFrom(calls, t)
    ensures AveragesNonNegative(Run(st, next, calls).0)
    decreases |calls|
  {
    if calls != [] {
      StepKeepsAveragesNonNegative(st, next, calls[0], t);
      var s := Step(st, next, calls[0]);
      RunKeepsAveragesNonNegative(s.0, s.1, calls[1..], calls[0].now);
    }
  }

  /**
   * From a thread's fresh context, any calls whose clock readings never go
   * back, wherever the clock starts, record only non-negative averages.
   */
  lemma FreshContextAveragesNonNegative(id: int, next: int, calls: seq<Call>, t: int)
    requires ClockFrom(calls, t)
    ensures AveragesNonNegative(Run(NewContext(id), next, calls).0)
  {
    RunKeepsAveragesNonNegative(NewContext(id), next, calls, t);
  }

  /**
   * Clear, then one push and pop of a name on any thread: the thread gets
   * a fresh context whose top-level section has that one child, run once,
   * with the one sample as its average.
   */
  lemma ClearThenCycle(r: RegistryModel.RegistryState, token: Token, name: string, t0: int, t1: int)
    requires RegistryModel.Valid(r)
    ensures var f := RegistryModel.Popped(RegistryModel.Pushed(RegistryModel.Cleared(r), token, name, t0), token, t1);
            && f.tokens == [token] && |f.states| == 1
            && f.states[0].current == Root
            && f.states[0].nodes[Root].children == map[name := 1]
            && f.states[0].nodes[1].callCount == 1
            && f.states[0].nodes[1].avgTime == (t1 - t0) as real
  {
    var c := RegistryModel.Cleared(r);
    var st := NewContext(c.counter);
    var p := RegistryModel.Pushed(c, token, name, t0);
    assert p.tokens == [token] && p.states == [Push(st, name, t0, c.counter + 1)];
    RegistryModel.ResolvedFound(p, token, 0);
    var f := RegistryModel.Popped(p, token, t1);
    NewChildCycle(st, name, t0, t1, c.counter + 1, f.states[0]);
    assert f.states[0].nodes[1].avgTime * 1.0 == (t1 - t0) as real;
  }

  /**
   * FFunctionProfiler over a registry: the push made by its constructor and
   * the pop made by its destructor leave the calling thread's cursor where
   * it was before.
   */
  lemma GuardRestoresCursor(r: RegistryModel.RegistryState, token: Token, name: string, enter: int, exit: int)
    requires RegistryModel.Valid(r)
    ensures var f := RegistryModel.Popped(RegistryModel.Pushed(r, token, name, enter), token, exit);
            RegistryModel.ContextOf(f, token).current == RegistryModel.ContextOf(r, token).current
  {
    var (g, k) := RegistryModel.Resolved(r, token);
    var p := RegistryModel.Pushed(r, token, name, enter);
    RegistryModel.ResolvedFound(p, token, k);
    var f := RegistryModel.Popped(p, token, exit);
    RegistryModel.ResolvedFound(f, token, k);
    RegistryModel.AllHealthyAt(g.states, g.counter, k);
    var q := Push(g.states[k], name, enter, g.counter);
    assert q.current != Root;
  }
}
