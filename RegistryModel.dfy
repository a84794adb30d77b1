/**
 * DProfiler's static state as a value: the contexts in vector order (the
 * thread each belongs to and its section tree) and the global
 * execution-order counter, with what GetContext, SectionPush, SectionPop
 * and Clear make of it.
 */
module RegistryModel {
  import opened Sections
  import opened ContextModel

  datatype RegistryState = RegistryState(tokens: seq<Token>, states: seq<ContextState>, counter: int)

  ghost predicate Distinct(tokens: seq<Token>)
  {
    forall a, b :: 0 <= a < b < |tokens| ==> tokens[a] != tokens[b]
  }

  /** A context is a well-formed tree whose ids follow creation order and are below the counter. */
  ghost predicate Healthy(st: ContextState, counter: int)
  {
    ContextModel.Valid(st) && IdsIncreasing(st.nodes) && IdsBelow(st.nodes, counter)
  }

  /** Every context in the list is healthy. */
  ghost predicate AllHealthy(states: seq<ContextState>, counter: int)
    decreases |states|
  {
    states == [] || (Healthy(states[0], counter) && AllHealthy(states[1..], counter))
  }

  lemma {:induction false} AllHealthyAt(states: seq<ContextState>, counter: int, k: nat)
    requires AllHealthy(states, counter) && k < |states|
    ensures Healthy(states[k], counter)
    decreases k
  {
    if k > 0 {
      AllHealthyAt(states[1..], counter, k - 1);
    }
  }

  lemma {:induction false} AllHealthyFrom(states: seq<ContextState>, counter: int)
    requires forall k :: 0 <= k < |states| ==> Healthy(states[k], counter)
    ensures AllHealthy(states, counter)
    decreases |states|
  {
    if states != [] {
      AllHealthyFrom(states[1..], counter);
    }
  }

  /** At most one context per thread, every context healthy. */
  ghost predicate Valid(r: RegistryState)
  {
    && |r.tokens| == |r.states|
    && Distinct(r.tokens)
    && AllHealthy(r.states, r.counter)
  }

  /** The position of the first context of `token` in the vector. */
  function Find(tokens: seq<Token>, token: Token): (r: Option<nat>)
    ensures r.Some? ==> r.value < |tokens| && tokens[r.value] == token
    ensures r.Some? ==> forall k :: 0 <= k < r.value ==> tokens[k] != token
    ensures r.None? <==> token !in tokens
    decreases |tokens|
  {
    if tokens == [] then None
    else if tokens[0] == token then Some(0)
    else match Find(tokens[1..], token)
      case None => None
      case Some(k) => Some(k + 1)
  }

  /** The scan stops at the first matching position. */
  lemma FindFirst(tokens: seq<Token>, token: Token, k: nat)
    requires k < |tokens| && tokens[k] == token && forall m :: 0 <= m < k ==> tokens[m] != token
    ensures Find(tokens, token) == Some(k)
  {
    var r := Find(tokens, token);
    assert r.Some?;
    assert r.value == k;
  }

  /**
   * GetContext: the registry afterwards and the position of the calling
   * thread's context in it. An unknown thread gets a new context appended,
   * whose top-level section takes the next id.
   */
  function Resolved(r: RegistryState, token: Token): (res: (RegistryState, nat))
    requires Valid(r)
    ensures Valid(res.0) && res.1 < |res.0.tokens| && res.0.tokens[res.1] == token
    ensures token in r.tokens ==> res.0 == r
    ensures token !in r.tokens ==>
              && res.0.tokens == r.tokens + [token] && res.0.states == r.states + [NewContext(r.counter)]
              && res.0.counter == r.counter + 1
  {
    match Find(r.tokens, token)
    case Some(k) => (r, k)
    case None =>
      var g := RegistryState(r.tokens + [token], r.states + [NewContext(r.counter)], r.counter + 1);
      forall k | 0 <= k < |g.states| ensures Healthy(g.states[k], g.counter) {
        if k < |r.states| {
          AllHealthyAt(r.states, r.counter, k);
        }
      }
      AllHealthyFrom(g.states, g.counter);
      (g, |r.tokens|)
  }

  /** A thread found at position k keeps the registry as it is. */
  lemma ResolvedFound(r: RegistryState, token: Token, k: nat)
    requires Valid(r) && k < |r.tokens| && r.tokens[k] == token
    requires forall m :: 0 <= m < k ==> r.tokens[m] != token
    ensures Resolved(r, token) == (r, k)
  {
    FindFirst(r.tokens, token, k);
  }

  /** The context of `token` as SectionPush and SectionPop find it after GetContext. */
  function ContextOf(r: RegistryState, token: Token): (st: ContextState)
    requires Valid(r)
    ensures Healthy(st, Resolved(r, token).0.counter)
    ensures token in r.tokens ==> st == r.states[Find(r.tokens, token).value]
    ensures token !in r.tokens ==> st == NewContext(r.counter)
  {
    var (g, k) := Resolved(r, token);
    AllHealthyAt(g.states, g.counter, k);
    g.states[k]
  }

  /** Replacing one healthy context keeps the registry valid. */
  lemma ReplaceValid(g: RegistryState, k: nat, st: ContextState, counter: int)
    requires Valid(g) && k < |g.states| && counter >= g.counter && Healthy(st, counter)
    ensures Valid(RegistryState(g.tokens, g.states[k := st], counter))
  {
    var states := g.states[k := st];
    forall j | 0 <= j < |states| ensures Healthy(states[j], counter) {
      if j != k {
        AllHealthyAt(g.states, g.counter, j);
      }
    }
    AllHealthyFrom(states, counter);
  }

  /**
   * SectionPush: after GetContext, the calling thread's context takes the
   * push of `name`; a created section takes the counter's value and
   * advances it.
   */
  function Pushed(r: RegistryState, token: Token, name: string, now: int): (p: RegistryState)
    requires Valid(r)
    ensures Valid(p)
  {
    var (g, k) := Resolved(r, token);
    var st := g.states[k];
    AllHealthyAt(g.states, g.counter, k);
    var counter := if Creates(st, name) then g.counter + 1 else g.counter;
    PushHealthy(st, name, now, g.counter);
    ReplaceValid(g, k, Push(st, name, now, g.counter), counter);
    RegistryState(g.tokens, g.states[k := Push(st, name, now, g.counter)], counter)
  }

  /**
   * A push keeps a context healthy: a created section takes the counter's
   * value, which is above every id already in the tree, and the counter
   * moves past it.
   */
  lemma PushHealthy(st: ContextState, name: string, now: int, counter: int)
    requires Healthy(st, counter)
    ensures Healthy(Push(st, name, now, counter), if Creates(st, name) then counter + 1 else counter)
  {
    var r := Push(st, name, now, counter);
    if Creates(st, name) {
      assert forall j :: 0 <= j < |st.nodes| ==> r.nodes[j].execOrderId == st.nodes[j].execOrderId;
      assert r.nodes[|st.nodes|].execOrderId == counter;
    }
  }

  /** SectionPop: after GetContext, the calling thread's context takes the pop. */
  function Popped(r: RegistryState, token: Token, now: int): (p: RegistryState)
    requires Valid(r)
    ensures Valid(p)
  {
    var (g, k) := Resolved(r, token);
    var st := g.states[k];
    AllHealthyAt(g.states, g.counter, k);
    ReplaceValid(g, k, Pop(st, now), g.counter);
    RegistryState(g.tokens, g.states[k := Pop(st, now)], g.counter)
  }

  /** Clear: every context is dropped; the counter keeps its value. */
  function Cleared(r: RegistryState): (p: RegistryState)
    ensures Valid(p) && p.tokens == [] && p.counter == r.counter
  {
    RegistryState([], [], r.counter)
  }

  /** Each thread's context, by thread. */
  ghost function Snapshot(tokens: seq<Token>, states: seq<ContextState>): (m: map<Token, ContextState>)
    requires |tokens| == |states|
    ensures m.Keys == set k | 0 <= k < |tokens| :: tokens[k]
    decreases |tokens|
  {
    if tokens == [] then map[]
    else
      var n := |tokens| - 1;
      var m := Snapshot(tokens[..n], states[..n])[tokens[n] := states[n]];
      assert m.Keys == set k | 0 <= k < |tokens| :: tokens[k] by {
        assert forall k :: 0 <= k < n ==> tokens[..n][k] == tokens[k];
      }
      m
  }

  /** With one context per thread, a thread's snapshot entry is its context. */
  lemma {:induction false} SnapshotAt(tokens: seq<Token>, states: seq<ContextState>, k: nat)
    requires |tokens| == |states| && Distinct(tokens) && k < |tokens|
    ensures tokens[k] in Snapshot(tokens, states) && Snapshot(tokens, states)[tokens[k]] == states[k]
    decreases |tokens|
  {
    var n := |tokens| - 1;
    if k < n {
      SnapshotAt(tokens[..n], states[..n], k);
    }
  }

  /** Replacing one context changes that thread's snapshot entry and no other. */
  lemma SnapshotReplace(tokens: seq<Token>, states: seq<ContextState>, k: nat, st: ContextState)
    requires |tokens| == |states| && Distinct(tokens) && k < |tokens|
    ensures Snapshot(tokens, states[k := st]) == Snapshot(tokens, states)[tokens[k] := st]
  {
    var a := Snapshot(tokens, states[k := st]);
    var b := Snapshot(tokens, states)[tokens[k] := st];
    forall t | t in a.Keys ensures t in b && a[t] == b[t] {
      var j :| 0 <= j < |tokens| && tokens[j] == t;
      SnapshotAt(tokens, states[k := st], j);
      SnapshotAt(tokens, states, j);
    }
  }

  /**
   * Isolation of threads: SectionPush changes the calling thread's context
   * to the push of `name` on the context GetContext resolved, and no other
   * thread's context.
   */
  lemma PushedTouchesOneThread(r: RegistryState, token: Token, name: string, now: int)
    requires Valid(r)
    ensures var p := Pushed(r, token, name, now);
            Snapshot(p.tokens, p.states)
              == Snapshot(r.tokens, r.states)[token := Push(ContextOf(r, token), name, now, Resolved(r, token).0.counter)]
  {
    var (g, k) := Resolved(r, token);
    AllHealthyAt(g.states, g.counter, k);
    SnapshotReplace(g.tokens, g.states, k, Push(g.states[k], name, now, g.counter));
    if token !in r.tokens {
      assert g.tokens[..|r.tokens|] == r.tokens && g.states[..|r.tokens|] == r.states;
    }
  }

  /** Isolation of threads for SectionPop. */
  lemma PoppedTouchesOneThread(r: RegistryState, token: Token, now: int)
    requires Valid(r)
    ensures var p := Popped(r, token, now);
            Snapshot(p.tokens, p.states) == Snapshot(r.tokens, r.states)[token := Pop(ContextOf(r, token), now)]
  {
    var (g, k) := Resolved(r, token);
    AllHealthyAt(g.states, g.counter, k);
    SnapshotReplace(g.tokens, g.states, k, Pop(g.states[k], now));
    if token !in r.tokens {
      assert g.tokens[..|r.tokens|] == r.tokens && g.states[..|r.tokens|] == r.states;
    }
  }
}
