# DataSort: re-indexing a reorderable task list

This project models the one piece of logic in the `DataSort` component of a
React Native app. The component shows a list of tasks that the user can reorder
by dragging. Each task has an identifier, a name and a priority. When a drag is released, the list widget hands back the tasks in their
new order. The component copies each task with `priority := index + 1` and
replaces its state with the result. The state starts as a fixed seed list of
five tasks. Until the first drag, the seed's priorities (4, 5, 1, 2, 3 by
position) are not the tasks' positions.

Modules:

- `Sequences` (`sequences.dfy`): duplicate-freedom and permutation of sequences, and the multiset facts the model needs about them.
- `Tasks` (`tasks.dfy`): the `Task` record and its projections (`Ids`, `Names`, `Priorities`). It also holds the predicates `DistinctIds`, `Ranked` (every priority is the task's 1-based position) and `PrioritiesFormRange` (the priorities are exactly 1..N).
- `Reindexing` (`reindex.dfy`): `Reindex`, the map performed by `handleDragEnd`. It comes with an independent reference definition, `RankFrom`, which scans left to right handing out ranks, and lemmas that relate the two and characterise the result.
- `DataSort` (`datasort.dfy`): the seed (`MockTasks`, which is also what `getMockTasks` returns unchanged), the badge colour, the row key, the component state `View` with its initial value, and the drag-end transition `DragEnd`.

The React state hook is modelled as an immutable `View` value. `DragEnd` is a
pure function from the old value and the payload to the new value. The list
widget is external code. What it reports on drag end is modelled by one
precondition, `IsDragResult`: the payload is a permutation (equal multisets) of
the current tasks. The code relies on this and never checks it.

## Model

| member | source | states |
|---|---|---|
| Reindexing.Reindex | components/DataSort.tsx:84-87 | the result is as long as the payload; it has the payload's identifiers and names in the same order; the task at 0-based index i has priority i + 1 |
| Reindexing.ReindexIsScan | components/DataSort.tsx:84-87 | the indexed map equals a left-to-right scan that hands out ranks 1, 2, 3, … on every input |
| Reindexing.ReindexUnique | components/DataSort.tsx:84-87 | any list with the payload's identifiers and names in order, whose priorities are the positions, is the re-indexed payload: only the priority changes |
| Reindexing.RankedIffFixpoint | components/DataSort.tsx:84-87 | re-indexing leaves a list unchanged exactly when every priority already equals its 1-based position (both directions) |
| Reindexing.ReindexIdempotent | components/DataSort.tsx:84-87 | re-indexing twice gives the same list as re-indexing once |
| Reindexing.ReindexIgnoresPriorities | components/DataSort.tsx:84-87 | two payloads with the same identifiers and names in the same order re-index to the same list, whatever priorities they carry |
| Reindexing.RankedPrioritiesFormRange | components/DataSort.tsx:14 | when every priority is its position, the priorities lie between 1 and the list's length, are all distinct, and take every value of 1..N |
| Reindexing.ReindexPrioritiesFormRange | components/DataSort.tsx:84-87 | after re-indexing, the priorities are exactly {1, …, N}, each once |
| Tasks.PermutationKeepsIds | components/DataSort.tsx:82-88 | a payload that is a permutation of the current tasks has the same multiset of identifiers |
| DataSort.MockTasks | components/DataSort.tsx:17-44 | the seed has five tasks with pairwise distinct identifiers and pairwise distinct names; its priorities are a permutation of 1..5; they are not the tasks' positions |
| DataSort.PriorityColor | components/DataSort.tsx:46-49 | the badge colour is red `#dc3545` for every priority, independent of its value |
| DataSort.KeyExtractor | components/DataSort.tsx:99 | the row key of a task is its identifier |
| DataSort.Init | components/DataSort.tsx:80 | the initial state is the seed exactly as written, which differs from the re-indexed seed |
| DataSort.DragEnd | components/DataSort.tsx:82-89 | given a payload that permutes the current tasks, the new state has the same length, the payload's identifiers and names in order, priorities equal to positions and forming 1..N, and the old state's multiset of identifiers |
| DataSort.KeysStableAcrossDragEnd | components/DataSort.tsx:99 | the row key at each position after a drag is the key of the payload task there, and the multiset of keys shown is unchanged by the drag |
| DataSort.DragEndEstablishesConsistency | components/DataSort.tsx:82-89 | if identifiers were unique before a drag, then afterwards they are still unique and every priority equals its 1-based position |
| DataSort.ResubmitLeavesStateUnchanged | components/DataSort.tsx:84-88 | in a consistent state, releasing a drag that moved nothing leaves the state as it is |
| DataSort.FirstDragRewritesSeedPriorities | components/DataSort.tsx:80-88 | on the seed, even a drag that moves nothing changes the state, because the seed's priorities are not its positions |
| DataSort.TwoConsecutiveDrags | components/DataSort.tsx:82-89 | starting from unique identifiers (the seed has them), after two drags the identifiers are still unique and the same multiset as before, and every priority equals its position |
| DataSort.MoveDependenciesToFront | components/DataSort.tsx:82-89 | moving "Update dependencies" to the front of the seed gives it priority 1 and ranks documentation 2, authentication 3, review 4, deploy 5 |

## Left out

- Rendering (`TaskItem`, `ScaleDecorator`, `ThemedView`, `ThemedText`, the header) is presentation, and part of it is components whose code is not part of this model.
- Beginning a drag (long-press, the dragged row's 0.8 opacity and disabled state) happens inside the list widget and the view layer. The model keeps no state for it.
- `DraggableFlatList` is a third-party library. Its gesture tracking, insertion-point computation, animation and scrolling are reduced to the `IsDragResult` precondition.
- The `useState`/`setTasks` mechanics are modelled as replacing an immutable `View` value, not as a mutable cell with re-render scheduling.
- `StyleSheet` values and `showsVerticalScrollIndicator` are styling only, and some of them are floating point.
- Priorities are JavaScript numbers in the source and unbounded integers here. `index + 1` stays exact in a double for any list shorter than 2^53, so nothing is lost.
- `getMockTasks` has no member of its own. It returns the seed array unchanged, and `DataSort.MockTasks` models both the seed constant and that accessor.
- `getMockTasks` and the initial state share the module's one mutable seed array in the source, so a caller that mutates the array it gets back (an in-place `sort`, say) changes what later mounts start from. The model treats the seed as an immutable value, so `DataSort.MockTasks` and `DataSort.Init` assume no caller mutates that array.
