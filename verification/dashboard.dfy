/** The dashboard's counters and recent-projects list
    (src/pages/Dashboard.tsx). `new Date(task.dueDate) < new Date()` is the
    parameter `isPast`: whether a due date lies before the current instant. */
module Dashboard {
  import opened Types
  import opened Seqs

  datatype Stats = Stats(total: nat, completed: nat, pending: nat, overdue: nat)

  const RecentCount := 3

  predicate IsCompleted(t: Task) {
    t.status == TaskStatus.Completed
  }

  predicate IsOverdue(t: Task, isPast: string -> bool) {
    !IsCompleted(t) && isPast(t.dueDate)
  }

  /** `tasks.filter((task) => task.status === "COMPLETED")`. */
  function CompletedTasks(tasks: seq<Task>): seq<Task> {
    Keep(tasks, IsCompleted)
  }

  /** `tasks.filter((task) => task.status !== "COMPLETED")`. */
  function PendingTasks(tasks: seq<Task>): seq<Task> {
    Keep(tasks, (t: Task) => !IsCompleted(t))
  }

  /** The pending tasks whose due date lies in the past. */
  function OverdueTasks(tasks: seq<Task>, isPast: string -> bool): seq<Task> {
    Keep(tasks, (t: Task) => IsOverdue(t, isPast))
  }

  /** Dashboard.tsx:33-42: the four counters are the sizes of the four task
      lists; every task is either completed or pending, and only pending
      tasks can be overdue. */
  function ComputeStats(tasks: seq<Task>, isPast: string -> bool): (st: Stats)
    ensures st.total == |tasks|
    ensures st.completed == |CompletedTasks(tasks)|
    ensures st.pending == |PendingTasks(tasks)|
    ensures st.overdue == |OverdueTasks(tasks, isPast)|
    ensures st.completed + st.pending == st.total
    ensures st.overdue <= st.pending
  {
    KeepPartition(tasks, IsCompleted, (t: Task) => !IsCompleted(t));
    KeepMonotone(tasks, (t: Task) => IsOverdue(t, isPast), (t: Task) => !IsCompleted(t));
    Stats(|tasks|, |CompletedTasks(tasks)|, |PendingTasks(tasks)|, |OverdueTasks(tasks, isPast)|)
  }

  /** Each counter counts exactly the tasks it names: a task is among the
      completed ones iff its status is COMPLETED, among the pending ones
      iff it is not, and among the overdue ones iff it is pending and past
      its due date. */
  lemma StatsCountTheirTasks(tasks: seq<Task>, isPast: string -> bool, t: Task)
    requires t in tasks
    ensures t in CompletedTasks(tasks) <==> IsCompleted(t)
    ensures t in PendingTasks(tasks) <==> !IsCompleted(t)
    ensures t in OverdueTasks(tasks, isPast) <==> IsOverdue(t, isPast)
  {
    var c := CompletedTasks(tasks);
    var p := PendingTasks(tasks);
    var o := OverdueTasks(tasks, isPast);
    if IsCompleted(t) {
      assert multiset(c)[t] == multiset(tasks)[t];
    } else {
      assert multiset(p)[t] == multiset(tasks)[t];
    }
    if IsOverdue(t, isPast) {
      assert multiset(o)[t] == multiset(tasks)[t];
    }
  }

  /** No completed task is counted as overdue, and every pending task past
      its due date is. */
  lemma OverdueMeansPendingAndPast(tasks: seq<Task>, isPast: string -> bool)
    ensures forall t :: t in OverdueTasks(tasks, isPast) ==> IsOverdue(t, isPast)
    ensures forall t :: t in tasks && IsOverdue(t, isPast) ==> t in OverdueTasks(tasks, isPast)
  {
    var r := OverdueTasks(tasks, isPast);
    forall t | t in tasks && IsOverdue(t, isPast)
      ensures t in r
    {
      assert multiset(r)[t] == multiset(tasks)[t];
    }
  }

  /** `projects.slice(0, 3)` (Dashboard.tsx:104): the first three projects
      in order, or all of them when there are fewer. */
  function RecentProjects(projects: seq<Project>): (r: seq<Project>)
    ensures |r| <= RecentCount
    ensures r <= projects
    ensures |projects| >= RecentCount ==> |r| == RecentCount
    ensures |projects| < RecentCount ==> r == projects
  {
    if |projects| <= 3 then projects else projects[..3]
  }
}
