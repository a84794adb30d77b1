/**
 * One profiled section (DProfileSection): its statistics, the running-mean
 * fold that SectionPop applies to it, and the two orderings Display sorts by.
 */
module Sections {

  datatype Option<T> = None | Some(value: T)

  /** The equality-comparable identity of a calling thread. */
  type Token = nat

  /** The label SectionPush uses when called without one. */
  const UnlabelledSection: string := "unlabelled section"

  /** DProfiler::SORT_BY. */
  datatype SortBy = SortExecution | SortTime

  /** The order Display uses when called without one. */
  const DefaultSort: SortBy := SortTime

  /**
   * A section node. Children and parent are arena indices into the
   * context's `nodes`; `timer` is the clock reading taken at the last push.
   */
  datatype Section = Section(
    name: string,
    parent: Option<nat>,
    children: map<string, nat>,
    callCount: nat,
    avgTime: real,
    execOrderId: int,
    timer: int)

  /** A section as DProfileSection's constructor leaves it. */
  function NewSection(id: int): Section
  {
    Section("", None, map[], 0, 0.0, id, 0)
  }

  /** Cumulative time: what the time ordering and the report's total column use. */
  function Total(s: Section): real
  {
    s.avgTime * s.callCount as real
  }

  /** Folds one elapsed-time sample into the running mean and bumps the count. */
  function Fold(s: Section, elapsed: real): (r: Section)
    ensures r.callCount == s.callCount + 1
    ensures Total(r) == Total(s) + elapsed
    ensures r.name == s.name && r.parent == s.parent && r.children == s.children
    ensures r.execOrderId == s.execOrderId && r.timer == s.timer
  {
    var total := elapsed + s.avgTime * s.callCount as real;
    s.(callCount := s.callCount + 1, avgTime := total / (s.callCount + 1) as real)
  }

  /** A running mean that started at zero and only saw non-negative samples stays non-negative. */
  lemma FoldKeepsAverageNonNegative(s: Section, elapsed: real)
    requires s.avgTime >= 0.0 && elapsed >= 0.0
    ensures Fold(s, elapsed).avgTime >= 0.0
  {
    var total := elapsed + s.avgTime * s.callCount as real;
    assert total >= 0.0;
  }

  function Sum(samples: seq<real>): real
  {
    if samples == [] then 0.0 else samples[0] + Sum(samples[1..])
  }

  /** Folds the samples in the order they were taken. */
  function FoldAll(s: Section, samples: seq<real>): Section
    decreases |samples|
  {
    if samples == [] then s else FoldAll(Fold(s, samples[0]), samples[1..])
  }

  /** Every fold adds its sample to the cumulative time and one to the count. */
  lemma {:induction false} FoldAllAccumulates(s: Section, samples: seq<real>)
    ensures FoldAll(s, samples).callCount == s.callCount + |samples|
    ensures Total(FoldAll(s, samples)) == Total(s) + Sum(samples)
    decreases |samples|
  {
    if samples != [] {
      FoldAllAccumulates(Fold(s, samples[0]), samples[1..]);
    }
  }

  /** From a fresh section, the running mean is exactly the mean of the samples. */
  lemma FoldAllIsMean(s: Section, samples: seq<real>)
    requires s.callCount == 0 && |samples| > 0
    ensures FoldAll(s, samples).callCount == |samples|
    ensures FoldAll(s, samples).avgTime == Sum(samples) / |samples| as real
  {
    FoldAllAccumulates(s, samples);
    var r := FoldAll(s, samples);
    assert r.avgTime * |samples| as real == Sum(samples);
  }

  /** reverse_time_comparator: a goes first when its cumulative time is larger. */
  predicate ReverseTimeComparator(a: Section, b: Section)
  {
    Total(a) > Total(b)
  }

  /** execution_order_comparator: a goes first when it was created earlier. */
  predicate ExecutionOrderComparator(a: Section, b: Section)
  {
    a.execOrderId < b.execOrderId
  }

  /** The comparator Display hands to std::sort for a sort mode. */
  predicate Before(sort: SortBy, a: Section, b: Section)
  {
    match sort
    case SortTime => ReverseTimeComparator(a, b)
    case SortExecution => ExecutionOrderComparator(a, b)
  }

  /**
   * Both comparators are strict weak orderings, which is what std::sort
   * demands of its comparator: irreflexive, transitive, and with
   * incomparability transitive.
   */
  lemma BeforeIsStrictWeakOrder(sort: SortBy, a: Section, b: Section, c: Section)
    ensures !Before(sort, a, a)
    ensures Before(sort, a, b) && Before(sort, b, c) ==> Before(sort, a, c)
    ensures !Before(sort, a, b) && !Before(sort, b, a) && !Before(sort, b, c) && !Before(sort, c, b)
            ==> !Before(sort, a, c) && !Before(sort, c, a)
  {
  }
}
