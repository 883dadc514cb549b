/** The badge classes of a task card (src/components/tasks/TaskCard.tsx).
    Both maps take the raw string and fall back to gray for anything else. */
module TaskCard {
  import opened Wrappers
  import opened Types

  const RedBadge := "bg-red-100 text-red-800"
  const OrangeBadge := "bg-orange-100 text-orange-800"
  const YellowBadge := "bg-yellow-100 text-yellow-800"
  const GreenBadge := "bg-green-100 text-green-800"
  const BlueBadge := "bg-blue-100 text-blue-800"
  const GrayBadge := "bg-gray-100 text-gray-800"

  /** `getPriorityColor` (TaskCard.tsx:11-24). */
  function PriorityColor(priority: string): (c: string)
    ensures ParsePriority(priority) == Some(Urgent) ==> c == RedBadge
    ensures ParsePriority(priority) == Some(High) ==> c == OrangeBadge
    ensures ParsePriority(priority) == Some(Medium) ==> c == YellowBadge
    ensures ParsePriority(priority) == Some(Low) ==> c == GreenBadge
    ensures ParsePriority(priority).None? ==> c == GrayBadge
  {
    if priority == "URGENT" then RedBadge
    else if priority == "HIGH" then OrangeBadge
    else if priority == "MEDIUM" then YellowBadge
    else if priority == "LOW" then GreenBadge
    else GrayBadge
  }

  /** The four priorities get four different classes, and gray marks
      exactly the strings that are not a priority. */
  lemma PriorityColorsDistinct(p: TaskPriority, q: TaskPriority, s: string)
    ensures p != q ==> PriorityColor(PriorityName(p)) != PriorityColor(PriorityName(q))
    ensures PriorityColor(s) == GrayBadge <==> ParsePriority(s).None?
  {
  }

  /** `getStatusColor` (TaskCard.tsx:26-37). */
  function StatusColor(status: string): (c: string)
    ensures ParseTaskStatus(status) == Some(TaskStatus.Completed) ==> c == GreenBadge
    ensures ParseTaskStatus(status) == Some(InProgress) ==> c == BlueBadge
    ensures ParseTaskStatus(status) == Some(Todo) ==> c == GrayBadge
    ensures ParseTaskStatus(status).None? ==> c == GrayBadge
  {
    if status == "COMPLETED" then GreenBadge
    else if status == "IN_PROGRESS" then BlueBadge
    else if status == "TODO" then GrayBadge
    else GrayBadge
  }

  /** TODO shares its class with unknown statuses; the two started
      statuses are told apart from it and from each other. */
  lemma StatusColorGrayIffNotStarted(s: string)
    ensures StatusColor(s) == GrayBadge <==> ParseTaskStatus(s).None? || ParseTaskStatus(s) == Some(Todo)
    ensures StatusColor("COMPLETED") != StatusColor("IN_PROGRESS")
  {
  }
}
