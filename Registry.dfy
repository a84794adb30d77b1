/**
 * DProfiler's static members and entry points: the vector of per-thread
 * contexts, DProfileSection's global execution-order counter, and
 * GetContext, Clear, SectionPush, SectionPop and Display changing them in
 * place; FFunctionProfiler, the guard that brackets a block with a push and
 * a pop. The calling thread is passed as a token and the clock reading as
 * `now`.
 */
module Registry {
  import opened Sections
  import opened ContextModel
  import opened Display
  import opened RegistryModel

  /** What Display prints for one context: its rows under a thread heading. */
  datatype ThreadReport = ThreadReport(thread: Token, rows: seq<Row>)

  /** `rep` is what Display prints for the context (token, st) under `plan`. */
  ghost predicate ReportOf(token: Token, st: ContextState, sort: SortBy, rep: ThreadReport, plan: Plan)
  {
    && rep.thread == token
    && Follows(st.nodes, Root, sort, plan)
    && rep.rows == Render(st.nodes, Root, "| ", sort, plan)
  }

  /**
   * `report` holds one report per context, for the first |report| contexts
   * in vector order, each under the plan at the same position of `plans`.
   */
  ghost predicate Reported(tokens: seq<Token>, states: seq<ContextState>, sort: SortBy, report: seq<ThreadReport>, plans: seq<Plan>)
    decreases |report|
  {
    && |plans| == |report| && |report| <= |tokens| && |report| <= |states|
    && (report != [] ==>
          var n := |report| - 1;
          && Reported(tokens, states, sort, report[..n], plans[..n])
          && ReportOf(tokens[n], states[n], sort, report[n], plans[n]))
  }

  lemma ReportedStep(tokens: seq<Token>, states: seq<ContextState>, sort: SortBy,
                     report: seq<ThreadReport>, plans: seq<Plan>, rep: ThreadReport, plan: Plan)
    requires Reported(tokens, states, sort, report, plans) && |report| < |tokens| && |report| < |states|
    requires ReportOf(tokens[|report|], states[|report|], sort, rep, plan)
    ensures Reported(tokens, states, sort, report + [rep], plans + [plan])
  {
    assert (report + [rep])[..|report|] == report;
    assert (plans + [plan])[..|plans|] == plans;
  }

  /** The report of each context, by position. */
  lemma {:induction false} ReportedAt(tokens: seq<Token>, states: seq<ContextState>, sort: SortBy,
                                      report: seq<ThreadReport>, plans: seq<Plan>, k: nat)
    requires Reported(tokens, states, sort, report, plans) && k < |report|
    ensures ReportOf(tokens[k], states[k], sort, report[k], plans[k])
    decreases |report|
  {
    var n := |report| - 1;
    if k < n {
      ReportedAt(tokens, states, sort, report[..n], plans[..n], k);
    }
  }

  /** DProfiler: the contexts vector and the global execution-order counter. */
  class Profiler {
    /** The thread each context of the vector belongs to. */
    var tokens: seq<Token>
    /** Each context's section tree and cursor, in vector order. */
    var states: seq<ContextState>
    /** DProfileSection::EXEC_ORDER_ID: the id the next constructed section takes. */
    var execOrderCounter: int

    /** The registry as a value. */
    function Model(): RegistryState
      reads this
    {
      RegistryState(tokens, states, execOrderCounter)
    }

    ghost predicate Valid()
      reads this
    {
      RegistryModel.Valid(Model())
    }

    /** The profiler before any section exists. */
    constructor()
      ensures Valid() && Model() == RegistryState([], [], 0)
    {
      tokens := [];
      states := [];
      execOrderCounter := 0;
    }

    /**
     * The position of the calling thread's context: the first one whose
     * token matches, or a new context appended to the vector, whose
     * top-level section takes the next id.
     */
    method GetContext(token: Token) returns (k: nat)
      requires Valid()
      modifies this
      ensures Model() == Resolved(old(Model()), token).0 && k == Resolved(old(Model()), token).1
      ensures Valid()
    {
      k := 0;
      while k < |tokens|
        invariant 0 <= k <= |tokens|
        invariant forall m :: 0 <= m < k ==> tokens[m] != token
      {
        if tokens[k] == token {
          ResolvedFound(Model(), token, k);
          return;
        }
        k := k + 1;
      }
      assert token !in tokens;
      tokens := tokens + [token];
      states := states + [NewContext(execOrderCounter)];
      execOrderCounter := execOrderCounter + 1;
    }

    /** Drops every context; the execution-order counter is not reset. */
    method Clear()
      modifies this
      ensures Model() == Cleared(old(Model())) && Valid()
    {
      tokens := [];
      states := [];
    }

    /**
     * SectionPush: resolve the calling thread's context, then descend into
     * the cursor's child called `name`, creating it with the next id if it
     * does not exist, and stamp its start time.
     */
    method SectionPush(token: Token, now: int, name: string := UnlabelledSection)
      requires Valid()
      modifies this
      ensures Model() == Pushed(old(Model()), token, name, now) && Valid()
    {
      var k := GetContext(token);
      ghost var g := Model();
      AllHealthyAt(states, execOrderCounter, k);
      var nodes := states[k].nodes;
      var current := states[k].current;
      var cur := nodes[current];
      var s: nat;
      if name in cur.children {
        s := cur.children[name];
        assert ChildLinked(nodes, current, name);
      } else {
        s := |nodes|;
        var section := NewSection(execOrderCounter).(name := name, parent := Some(current));
        execOrderCounter := execOrderCounter + 1;
        nodes := nodes[current := cur.(children := cur.children[name := s])] + [section];
      }
      current := s;
      nodes := nodes[s := nodes[s].(timer := now)];
      states := states[k := ContextState(nodes, current)];
      assert states[k] == Push(g.states[k], name, now, g.counter);
    }

    /**
     * SectionPop: resolve the calling thread's context; unless its cursor is
     * on the top level, fold the time since the cursor section's push into
     * its running mean and move the cursor to its parent.
     */
    method SectionPop(token: Token, now: int)
      requires Valid()
      modifies this
      ensures Model() == Popped(old(Model()), token, now) && Valid()
    {
      var k := GetContext(token);
      AllHealthyAt(states, execOrderCounter, k);
      var st := states[k];
      var s := st.nodes[st.current];
      assert st.current != Root ==> ParentLinked(st.nodes, st.current);
      if s.parent == None {
        assert states[k := Pop(st, now)] == states;
        return;
      }
      states := states[k := ContextState(st.nodes[st.current := Fold(s, Elapsed(s, now))], s.parent.value)];
    }

    /** One thread's part of Display: its heading and its top-level section's rows. */
    method DisplayContext(k: nat, sort: SortBy) returns (rep: ThreadReport, ghost plan: Plan)
      requires Valid() && k < |states|
      ensures ReportOf(tokens[k], states[k], sort, rep, plan)
      ensures rep.thread == tokens[k] && RowsShow(states[k].nodes, rep.rows, Root)
    {
      AllHealthyAt(states, execOrderCounter, k);
      var rows;
      rows, plan := DisplaySection(states[k].nodes, Root, "| ", sort);
      rep := ThreadReport(tokens[k], rows);
    }

    /**
     * Display: for every context in vector order, the rows its top-level
     * section prints under the prefix "| ", sorted by `sort` at every level.
     */
    method Display(sort: SortBy := DefaultSort) returns (report: seq<ThreadReport>, ghost plans: seq<Plan>)
      requires Valid()
      ensures |report| == |states| && Reported(tokens, states, sort, report, plans)
    {
      report := [];
      plans := [];
      var k := 0;
      while k < |states|
        invariant k <= |states| && |report| == k && Reported(tokens, states, sort, report, plans)
      {
        var rep, plan := DisplayContext(k, sort);
        ReportedStep(tokens, states, sort, report, plans, rep, plan);
        report := report + [rep];
        plans := plans + [plan];
        k := k + 1;
      }
    }
  }

  /**
   * FFunctionProfiler: constructing it pushes a section for the calling
   * thread; its destructor, Release here, pops it again.
   */
  class FunctionProfiler {
    const profiler: Profiler
    const token: Token

    constructor(profiler: Profiler, token: Token, now: int, functionName: string)
      requires profiler.Valid()
      modifies profiler
      ensures this.profiler == profiler && this.token == token
      ensures profiler.Valid() && profiler.Model() == Pushed(old(profiler.Model()), token, functionName, now)
    {
      this.profiler := profiler;
      this.token := token;
      new;
      profiler.SectionPush(token, now, functionName);
    }

    method Release(now: int)
      requires profiler.Valid()
      modifies profiler
      ensures profiler.Valid() && profiler.Model() == Popped(old(profiler.Model()), token, now)
    {
      profiler.SectionPop(token, now);
    }
  }
}
