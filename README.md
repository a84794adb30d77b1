# DProfiler section-tracking engine in Dafny

DProfiler is a small hierarchical profiler. Instrumented code calls
`DProfiler::SectionPush(name)` at the start of a section and
`DProfiler::SectionPop()` at its end. The profiler keeps one context per
calling thread. A context is a tree of `DProfileSection`s: a synthetic
top-level section, a cursor on the section that is open now, and under each
section a map from label to child section. Each section keeps a running mean
of its elapsed times and a call count. `DProfiler::Display` prints every
thread's tree, sorting siblings by total time or by creation order and
drawing tree guides with string surgery on a prefix. `FFunctionProfiler`
brackets a block with a push and a pop.

This project models that engine and proves what it promises.

- `Sections` holds one section (`DProfileSection`): its fields, the
  running-mean fold SectionPop applies, the two comparators and the defaults
  (`"unlabelled section"`, `SORT_TIME`).
- `ContextModel` holds one thread's context as a value. The sections sit in
  an arena (a sequence), and entry 0 is the top-level section. Parent links
  are indices and child maps are `map<string, nat>`. `Push` and `Pop` are
  what SectionPush and SectionPop do to the context GetContext returned.
- `Traces` covers sequences of pushes and pops by one thread:
  - stack discipline;
  - section identity by (parent, name);
  - exact accumulation of the mean over repeated push/pop cycles.
- `Display` models `DProfileSection::Display` as methods:
  - filling the children vector from the map;
  - sorting it in place on an `array` (an insertion sort stands in for
    `std::sort`);
  - the row loop and the recursion.

  They are proved against a ghost specification (`Follows`/`Render`) that
  fixes the order only up to comparator ties, as `std::sort` does.
- `RegistryModel` gives the profiler's static state as a value: the contexts
  vector (thread token and tree) and `EXEC_ORDER_ID`. It also says what
  GetContext, SectionPush, SectionPop and Clear make of that state, and
  proves that threads are isolated from each other.
- `Registry` is the imperative profiler. Class `Profiler` holds the contexts
  vector and the counter as fields. Its state-changing methods are
  GetContext (with the scanning loop), Clear, SectionPush and SectionPop,
  each proved to produce exactly the new state `RegistryModel` describes.
  Display changes nothing; it is proved to return, for every context in
  vector order, the rows `Display.Render` specifies for its top-level
  section. Class `FunctionProfiler` is the guard.
- `Scenarios` holds whole usage patterns:
  - the nested example in the header's documentation;
  - profiling after Clear;
  - a guarded block;
  - non-negative averages under a clock that never goes back.

The calling thread's identity is a `Token` parameter. The clock reading, in
milliseconds, is an `int` parameter `now`. `avg_time` is a `real`.

Clear empties the contexts vector but leaves `EXEC_ORDER_ID` as it is: the
counter is a static that nothing resets (DProfiler.cpp:29, 71-85, 169). So
"Clear destroys all history" holds for the trees and statistics, not for the
creation ids. The model follows the code: after Clear, new sections keep
getting larger ids than every section created before.

## Model

| member | source | states |
|---|---|---|
| Sections.Fold | DProfiler.cpp:134-136 | folding one sample adds one to the call count and adds the sample to the cumulative time `avg*count`; name, parent, children, id and timer are kept |
| Sections.FoldKeepsAverageNonNegative | DProfiler.cpp:130-136 | a non-negative mean that folds a non-negative sample stays non-negative |
| Sections.FoldAllAccumulates | DProfiler.cpp:134-136 | folding a list of samples adds its length to the count and its sum to the cumulative time |
| Sections.FoldAllIsMean | DProfiler.cpp:134-136 | starting from count 0, the running mean after N samples is exactly their arithmetic mean and the count is N |
| Sections.BeforeIsStrictWeakOrder | DProfiler.cpp:183-191 | both comparators (larger total first; smaller id first) are irreflexive and transitive, and their incomparability is transitive, as std::sort requires |
| ContextModel.NewContext | DProfiler.cpp:56-62 | a new context is a valid tree holding only the top-level section, which has no children, count 0 and the given id, with the cursor on it |
| ContextModel.Push | DProfiler.cpp:87-110 | the result is still a valid tree and extends the old one. The cursor moves to the child called `name` of the old cursor, and that child gets the new start stamp. An existing child is reused with no new section. Otherwise exactly one section is appended with count 0, mean 0, no children and the given id. Only the old cursor's child map changes, and no section's count or mean changes |
| ContextModel.PushReuses | DProfiler.cpp:94-107 | reusing an existing child changes only that child's timer and moves the cursor onto it |
| ContextModel.PushAppends | DProfiler.cpp:95-104 | a new child is linked under the cursor by its name, points back at the cursor as parent, and the tree stays valid |
| ContextModel.Pop | DProfiler.cpp:113-142 | at the top level the context is unchanged, and it is unchanged only there. Otherwise the open section folds in `now - timer`, the cursor moves to its parent, every other section is unchanged and the tree stays valid |
| Traces.Step | DProfiler.cpp:87-142 | one push or pop keeps the tree valid and extends it. Ids keep following creation order and stay below the counter, which never decreases |
| Traces.Run | DProfiler.cpp:87-142 | the same as Step, for any sequence of pushes and pops |
| Traces.NestedRunReturns | DProfiler.cpp:104-141 | stack discipline: strictly nested calls with `open` sections already open end with the cursor on the section `open` levels above the start. So every pop returns to the section that was current at its matching push |
| Traces.GuardedBlockRestoresCursor | DProfiler.h:200-207 | a block bracketed by a push of its label and a pop, whose own calls are nested, leaves the cursor where it was |
| Traces.SectionIdentity | DProfiler.h:176-186 | two non-root sections of a tree are the same section exactly when they have the same parent and the same name |
| Traces.RepeatedSectionAccumulates | DProfiler.cpp:94-136 | repeated push/pop cycles of a label that exists under the cursor fold every duration, in order, into that one section. No other section's statistics change, and the cursor and its child map are back as before |
| Traces.FirstUseAccumulatesMean | DProfiler.cpp:94-136 | N push/pop cycles of a new label create one section under the cursor whose count is N and whose mean is the mean of the N durations; the cursor is back |
| Display.LabelShape | DProfiler.cpp:217-221 | a row label is the prefix without its last two characters, then `"+ "`, then the section name |
| Display.ChildPrefixShape | DProfiler.cpp:226-234 | a child's prefix is two characters longer and keeps all guides but the last. The last guide becomes blanks exactly for the last sibling, and a new `"| "` is appended |
| Display.DisplayOrderMeaning | DProfiler.cpp:203-211 | a display order lists each child once and only children. By total time, totals never increase down the list. By execution order (ids follow creation order), ids strictly increase |
| Display.ChildMapInjective | DProfiler.h:176-186 | in a valid tree no two labels of one child map name the same section |
| Display.ChildrenVector | DProfiler.cpp:195-201 | the vector filled from a child map holds every child exactly once (as a multiset it equals the map's values) |
| Display.Insert | DProfiler.cpp:204-211 | one insertion pass on the array keeps its elements (as a multiset) and extends the sorted prefix by one |
| Display.SortSections | DProfiler.cpp:204-211 | sorting the array in place keeps its elements (as a multiset) and leaves no section behind one the comparator puts ahead of it |
| Display.SortedChildren | DProfiler.cpp:195-211 | the gathered and sorted children form a display order for the mode (each child once, sorted), and every entry comes after the parent in the arena |
| Display.DisplaySection | DProfiler.cpp:193-237 | the rows printed for section i are the children in a display order for the mode, each child's row followed by the rows of its own Display under its child prefix, recursively. Every row shows a section strictly below i with that section's own total, average and count |
| Display.DisplayChildren | DProfiler.cpp:213-236 | the loop prints, for each child in order, its row and then its subtree's rows |
| Display.RenderRowsShow | DProfiler.cpp:213-236 | every printed row shows a section strictly below the displayed one, with that section's own total, average and count; the top-level section is never a row |
| RegistryModel.Find | DProfiler.cpp:44-53 | the scan finds the first context whose token matches, and finds none exactly when the token is absent |
| RegistryModel.Resolved | DProfiler.cpp:39-67 | GetContext returns a position holding the caller's token. A known token leaves the registry unchanged. An unknown one appends exactly one context, a new top-level section taking the counter's value, and the counter advances. There is never more than one context per token |
| RegistryModel.ResolvedFound | DProfiler.cpp:44-53 | a token first found at position k resolves to k with the registry unchanged |
| RegistryModel.ContextOf | DProfiler.cpp:39-67 | the context a push or pop works on is the caller's existing context or a new one, and it is a healthy tree |
| RegistryModel.Pushed | DProfiler.cpp:87-110 | SectionPush on the registry keeps it valid: one context per token, every tree valid, ids in creation order and below the counter |
| RegistryModel.PushHealthy | DProfiler.cpp:164-170 | a push keeps a context's ids in creation order and below the counter; a created section takes the counter's value and the counter moves past it |
| RegistryModel.Popped | DProfiler.cpp:113-142 | SectionPop on the registry keeps it valid |
| RegistryModel.Cleared | DProfiler.cpp:71-85 | Clear leaves no context and keeps the execution-order counter |
| RegistryModel.PushedTouchesOneThread | DProfiler.cpp:89-104 | by thread, a push changes only the caller's context, to the push on the context GetContext resolved; every other thread's context is unchanged |
| RegistryModel.PoppedTouchesOneThread | DProfiler.cpp:118-141 | by thread, a pop changes only the caller's context; every other thread's context is unchanged |
| Registry.Profiler.constructor | DProfiler.cpp:26-29 | the profiler starts with no contexts and counter 0 |
| Registry.Profiler.GetContext | DProfiler.cpp:39-67 | the scanning loop and the append produce exactly `Resolved`'s registry and position |
| Registry.Profiler.Clear | DProfiler.cpp:71-85 | the new state is exactly `Cleared` of the old |
| Registry.Profiler.SectionPush | DProfiler.cpp:87-110 | the new state is exactly `Pushed` of the old; called without a label it pushes `"unlabelled section"` (DProfiler.h:133) |
| Registry.Profiler.SectionPop | DProfiler.cpp:113-142 | the new state is exactly `Popped` of the old |
| Registry.Profiler.DisplayContext | DProfiler.cpp:156-157 | one context's report is its thread and the rows its top-level section prints under prefix `"| "`; every row shows a section of that thread's tree other than the top-level one, with its own statistics |
| Registry.Profiler.Display | DProfiler.cpp:144-161 | one report per context in vector order, each the top-level section's rows under `"| "`; the sort defaults to total time (DProfiler.h:141-142) |
| Registry.ReportedAt | DProfiler.cpp:152-157 | the k-th report is the k-th context's report |
| Registry.FunctionProfiler.constructor | DProfiler.h:203-204 | constructing the guard pushes its label for the calling thread |
| Registry.FunctionProfiler.Release | DProfiler.h:205-206 | destroying the guard pops for the calling thread |
| Scenarios.NewChildCycle | DProfiler.cpp:94-141 | pushing a new label and popping it adds one section under the cursor, run once, holding exactly that duration. The cursor is back, and the only other change is the cursor's child map |
| Scenarios.NestedExample | DProfiler.h:44-57 | the documented nested example creates one "two-step process" section under the cursor, whose children are exactly "step 1" and "step 2", each run once. With a clock that never goes back, its time is at least the sum of the two steps' times |
| Scenarios.StepsInsideOuter | DProfiler.h:44-51 | in the nested example before its last pop, the outer section is open, unpopped, with its two steps run once each |
| Scenarios.TwoSteps | DProfiler.h:46-51 | two push/pop pairs of new labels under a childless cursor give it exactly those two children, in creation order, each run once |
| Scenarios.RunKeepsAveragesNonNegative | DProfiler.cpp:130-136 | with a clock that never goes back from the latest start stamp of any pushed section, every recorded average stays non-negative over any sequence of calls; the top-level section's stamp, never read, plays no part |
| Scenarios.FreshContextAveragesNonNegative | DProfiler.cpp:130-136 | from a thread's fresh context, calls whose clock never goes back, wherever it starts (negative readings included), record only non-negative averages |
| Scenarios.ClearThenCycle | DProfiler.cpp:71-85 | after Clear, one push/pop of any label on any thread gives a single new context whose top-level section has that one child, with count 1 and the single sample as its average |
| Scenarios.GuardRestoresCursor | DProfiler.h:203-206 | the guard's push and pop, taken through the registry, leave the calling thread's cursor where it was |

## Left out

- The `DSemaphore` lock and every cross-thread interleaving: operations run one at a time, and the caller's thread is a token parameter.
- `DThreadContext` and `DTime` are not part of this model. The thread is a `Token`, and each clock reading is an `int` parameter in milliseconds. The clock is read before GetContext in SectionPop, and at the end of SectionPush.
- IEEE double rounding: `avg_time` is a `real`, so the mean is exact.
- `printf`: column widths and precision, the banner and header lines, and the thread printed as `%x` of an address. Display returns rows (label, total, average, count) and a report per thread instead.
- `new`/`delete` and the recursive destructors. Clear drops the contexts vector, which loses the same trees.
- Pointer identity and aliasing. Contexts and sections are values in an arena, GetContext returns a position in the vector, and the shared static `end_time` is a local reading.
- 32-bit `int` overflow of `call_count` and `EXEC_ORDER_ID`: both are unbounded.
- The `#ifdef PROFILE` macros, `#warning`, and the commented-out `QueryPerformanceCounter` and decaying-average code.
- `std::sort`'s order among tied siblings and `std::map`'s iteration order. Display fixes the order only up to ties, and the sort is an insertion sort with the same postcondition.
- Display.ChildrenVector: requires a child map in which no two labels name the same section, which every valid tree has (Display.ChildMapInjective).
- Matching a pop to its push by label, which the code never checks.
- Scenarios.NestedExample, Scenarios.StepsInsideOuter and Scenarios.TwoSteps: stated over explicit compositions of Push and Pop rather than over `Run` of a call list.
