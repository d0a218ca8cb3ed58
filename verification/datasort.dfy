/** The reorderable task list component: its seed data, its one piece of
    state, the drag-end handler and the accessors it hands to the list widget. */
module DataSort {
  import opened Sequences
  import opened Tasks
  import opened Reindexing

  /** The built-in seed list: five tasks with unique identifiers, names and
      priorities. The priorities are a permutation of 1..5 but are not the
      tasks' positions (4, 5, 1, 2, 3 by position). */
  function MockTasks(): (ts: seq<Task>)
    ensures |ts| == 5
    ensures DistinctIds(ts)
    ensures NoDuplicates(Names(ts))
    ensures PrioritiesFormRange(ts)
    ensures !Ranked(ts)
  {
    var ts := [
      Task("task_001", "Complete project documentation", 4),
      Task("task_002", "Fix authentication bug", 5),
      Task("task_003", "Update dependencies", 1),
      Task("task_004", "Code review for new feature", 2),
      Task("task_005", "Deploy to production", 3)
    ];
    assert Ids(ts) == ["task_001", "task_002", "task_003", "task_004", "task_005"];
    assert Names(ts) == ["Complete project documentation", "Fix authentication bug",
                         "Update dependencies", "Code review for new feature", "Deploy to production"];
    assert Priorities(ts) == [4, 5, 1, 2, 3];
    assert (set i | 0 <= i < |ts| :: ts[i].priority) == OneTo(5) by {
      assert ts[2].priority == 1 && ts[3].priority == 2 && ts[4].priority == 3;
      assert ts[0].priority == 4 && ts[1].priority == 5;
    }
    ts
  }

  /** The colour of a priority badge. */
  const BadgeRed: string := "#dc3545"

  /** Every priority gets the same red badge. */
  function PriorityColor(priority: int): (c: string)
    ensures c == BadgeRed
  {
    BadgeRed
  }

  /** The stable row key the list widget uses for a task. */
  function KeyExtractor(t: Task): (k: string)
    ensures k == t.id
  {
    t.id
  }

  /** The component's state: the tasks in display order. */
  datatype View = View(tasks: seq<Task>)

  /** The state at mount: the seed list as it is, not re-indexed. */
  function Init(): (v: View)
    ensures v.tasks == MockTasks()
    ensures v.tasks != Reindex(MockTasks())
  {
    View(MockTasks())
  }

  /** What the list widget reports when a drag is released: the current tasks
      in a new order. The component relies on this without checking it. */
  predicate IsDragResult(v: View, data: seq<Task>) {
    IsPermutation(data, v.tasks)
  }

  /** The drag-end handler: the re-indexed payload replaces the state. */
  function DragEnd(v: View, data: seq<Task>): (v': View)
    requires IsDragResult(v, data)
    ensures |v'.tasks| == |v.tasks|
    ensures Ids(v'.tasks) == Ids(data) && Names(v'.tasks) == Names(data)
    ensures Ranked(v'.tasks) && PrioritiesFormRange(v'.tasks)
    ensures multiset(Ids(v'.tasks)) == multiset(Ids(v.tasks))
  {
    var tasks := Reindex(data);
    ReindexPrioritiesFormRange(data);
    PermutationKeepsIds(data, v.tasks);
    assert |multiset(data)| == |multiset(v.tasks)|;
    View(tasks)
  }

  /** Row keys follow their tasks through a drag: the key at each position is
      the key of the payload task there, and the keys shown are the keys that
      were shown before. */
  lemma KeysStableAcrossDragEnd(v: View, data: seq<Task>)
    requires IsDragResult(v, data)
    ensures forall i :: 0 <= i < |data| ==> KeyExtractor(DragEnd(v, data).tasks[i]) == KeyExtractor(data[i])
    ensures multiset(Ids(DragEnd(v, data).tasks)) == multiset(Ids(v.tasks))
  {
    var w := DragEnd(v, data);
    forall i | 0 <= i < |data|
      ensures KeyExtractor(w.tasks[i]) == KeyExtractor(data[i])
    {
      assert Ids(w.tasks)[i] == Ids(data)[i];
    }
  }

  /** The state invariant: identifiers are unique and each priority is the
      task's 1-based position, so the priorities are exactly 1..N. */
  predicate Consistent(v: View) {
    DistinctIds(v.tasks) && Ranked(v.tasks) && PrioritiesFormRange(v.tasks)
  }

  /** Every completed drag establishes the invariant, provided the identifiers
      were unique before it (as they are in the seed). */
  lemma DragEndEstablishesConsistency(v: View, data: seq<Task>)
    requires DistinctIds(v.tasks) && IsDragResult(v, data)
    ensures Consistent(DragEnd(v, data))
  {
    var w := DragEnd(v, data);
    PermutationKeepsNoDuplicates(Ids(v.tasks), Ids(w.tasks));
  }

  /** Releasing a drag without moving anything leaves a consistent state as it is. */
  lemma ResubmitLeavesStateUnchanged(v: View)
    requires Consistent(v)
    ensures IsDragResult(v, v.tasks)
    ensures DragEnd(v, v.tasks) == v
  {
    RankedIffFixpoint(v.tasks);
  }

  /** On the seed, even a drag that moves nothing rewrites the priorities:
      the initial display and the positions are decoupled until the first drag. */
  lemma FirstDragRewritesSeedPriorities()
    ensures IsDragResult(Init(), MockTasks())
    ensures DragEnd(Init(), MockTasks()) != Init()
  {
  }

  /** Two consecutive drags keep the identifiers unique and those of the
      state before them, and leave every priority equal to its position. The
      seed has unique identifiers, so this holds from mount. */
  lemma TwoConsecutiveDrags(v: View, d1: seq<Task>, d2: seq<Task>)
    requires DistinctIds(v.tasks)
    requires IsDragResult(v, d1)
    requires IsDragResult(DragEnd(v, d1), d2)
    ensures Consistent(DragEnd(DragEnd(v, d1), d2))
    ensures multiset(Ids(DragEnd(DragEnd(v, d1), d2).tasks)) == multiset(Ids(v.tasks))
  {
    DragEndEstablishesConsistency(v, d1);
    DragEndEstablishesConsistency(DragEnd(v, d1), d2);
  }

  lemma ReindexFive(a: Task, b: Task, c: Task, d: Task, e: Task)
    ensures Reindex([a, b, c, d, e])
         == [a.(priority := 1), b.(priority := 2), c.(priority := 3), d.(priority := 4), e.(priority := 5)]
  {
  }

  /** The seed with "Update dependencies" moved to the front. */
  function DependenciesFirst(): seq<Task> {
    var s := MockTasks();
    [s[2], s[0], s[1], s[3], s[4]]
  }

  /** That reordering is something the list widget can report. */
  lemma DependenciesFirstIsDragResult()
    ensures IsDragResult(Init(), DependenciesFirst())
  {
    var s := MockTasks();
    var data := DependenciesFirst();
    assert data == [s[2]] + [s[0], s[1]] + [s[3], s[4]];
    assert s == [s[0], s[1]] + [s[2]] + [s[3], s[4]];
  }

  /** Moving "Update dependencies" to the front of the seed list ranks it 1,
      the two tasks that were before it 2 and 3, and the rest by position. */
  lemma MoveDependenciesToFront()
    ensures IsDragResult(Init(), DependenciesFirst())
    ensures DragEnd(Init(), DependenciesFirst()).tasks == [
              Task("task_003", "Update dependencies", 1),
              Task("task_001", "Complete project documentation", 2),
              Task("task_002", "Fix authentication bug", 3),
              Task("task_004", "Code review for new feature", 4),
              Task("task_005", "Deploy to production", 5)]
  {
    DependenciesFirstIsDragResult();
    var s := MockTasks();
    ReindexFive(s[2], s[0], s[1], s[3], s[4]);
  }
}
