/** The task detail page (src/pages/TaskDetail.tsx): how the edit form is
    filled from a fetched task, what a save sends back, and the name shown
    for the assignee. */
module TaskDetail {
  import opened Wrappers
  import opened Types
  import opened Strings

  const UnassignedLabel := "Sin asignar"

  /** `dueDate.split('T')[0]` (TaskDetail.tsx:58): the date part of an ISO
      timestamp, everything before the first 'T'. */
  function DueDateInput(dueDate: string): (r: string)
    ensures 'T' !in r
    ensures r <= dueDate
    ensures |r| < |dueDate| ==> dueDate[|r|] == 'T'
  {
    Split(dueDate, 'T')[0]
  }

  /** A string without 'T' is its own date part, so extracting twice is
      extracting once. */
  lemma DueDateInputIdempotent(dueDate: string)
    ensures 'T' !in dueDate ==> DueDateInput(dueDate) == dueDate
    ensures DueDateInput(DueDateInput(dueDate)) == DueDateInput(dueDate)
  {
  }

  /** `assignedTo || ''` (TaskDetail.tsx:59). */
  function AssignedToInput(assignedTo: Option<string>): (r: string)
    ensures r == "" <==> !Truthy(assignedTo)
    ensures Truthy(assignedTo) ==> r == assignedTo.value
  {
    OrElse(assignedTo, "")
  }

  /** `assignedTo || undefined` (TaskDetail.tsx:86). */
  function AssignedToPayload(field: string): (r: Option<string>)
    ensures r.None? <==> field == ""
    ensures r.Some? ==> r.value == field
  {
    if field != "" then Some(field) else None
  }

  /** The form field and the payload are inverse up to the empty string:
      an assignee survives the round trip, an empty one becomes absent. */
  lemma AssigneeRoundTrip(assignedTo: Option<string>, field: string)
    ensures AssignedToPayload(AssignedToInput(assignedTo)) == (if Truthy(assignedTo) then assignedTo else None)
    ensures AssignedToInput(AssignedToPayload(field)) == field
  {
  }

  /** The edit form's fields. */
  datatype EditForm = EditForm(title: string, description: string, priority: string, dueDate: string, assignedTo: string)

  /** The update `handleSave` sends (TaskDetail.tsx:81-87). */
  datatype TaskUpdate = TaskUpdate(
    title: string,
    description: string,
    priority: string,
    dueDate: string,
    assignedTo: Option<string>)

  /** Form initialisation after the fetch (TaskDetail.tsx:55-59). */
  function InitForm(t: Task): (f: EditForm)
    ensures f.title == t.title && f.description == t.description
    ensures f.priority == PriorityName(t.priority)
    ensures f.dueDate == DueDateInput(t.dueDate)
    ensures f.assignedTo == AssignedToInput(t.assignedTo)
  {
    EditForm(t.title, t.description, PriorityName(t.priority), DueDateInput(t.dueDate), AssignedToInput(t.assignedTo))
  }

  function SaveRequest(f: EditForm): (u: TaskUpdate)
    ensures u.title == f.title && u.description == f.description
    ensures u.priority == f.priority && u.dueDate == f.dueDate
    ensures u.assignedTo == AssignedToPayload(f.assignedTo)
  {
    TaskUpdate(f.title, f.description, f.priority, f.dueDate, AssignedToPayload(f.assignedTo))
  }

  /** Saving without editing sends the task's own title, description and
      priority, the date part of its due date, and its assignee unless that
      was empty. */
  lemma SaveWithoutEditsRoundTrip(t: Task)
    ensures var u := SaveRequest(InitForm(t));
            && u.title == t.title && u.description == t.description
            && ParsePriority(u.priority) == Some(t.priority)
            && u.dueDate <= t.dueDate && 'T' !in u.dueDate
            && u.assignedTo == (if Truthy(t.assignedTo) then t.assignedTo else None)
  {
    PriorityRoundTrip(t.priority, PriorityName(t.priority));
    AssigneeRoundTrip(t.assignedTo, "");
  }

  /** Index of the first member with the given id, if any. */
  function FirstMemberWithId(members: seq<TeamMember>, id: string): (r: Option<nat>)
    ensures r.Some? ==> r.value < |members| && members[r.value].id == id
    ensures r.Some? ==> forall j :: 0 <= j < r.value ==> members[j].id != id
    ensures r.None? ==> forall j :: 0 <= j < |members| ==> members[j].id != id
    decreases |members|
  {
    if |members| == 0 then None
    else if members[0].id == id then Some(0)
    else
      match FirstMemberWithId(members[1..], id)
      case None => None
      case Some(i) => Some(i + 1)
  }

  /** `assigneeName` (TaskDetail.tsx:126): the name of the first member
      whose id is the task's assignee, or the placeholder when there is no
      assignee, no such member, or the name is empty. */
  function AssigneeName(members: seq<TeamMember>, assignedTo: Option<string>): (name: string)
    ensures name != ""
    ensures assignedTo.None? ==> name == UnassignedLabel
    ensures name != UnassignedLabel ==>
      assignedTo.Some? &&
      exists i :: 0 <= i < |members| && members[i].id == assignedTo.value && members[i].name == name
                  && forall j :: 0 <= j < i ==> members[j].id != assignedTo.value
    ensures forall i :: 0 <= i < |members| && assignedTo.Some? && members[i].id == assignedTo.value
                        && members[i].name != ""
                        && (forall j :: 0 <= j < i ==> members[j].id != assignedTo.value)
                        ==> name == members[i].name
    ensures (assignedTo.Some? && forall i :: 0 <= i < |members| ==> members[i].id != assignedTo.value)
            ==> name == UnassignedLabel
  {
    match assignedTo
    case None => "Sin asignar"
    case Some(id) =>
      match FirstMemberWithId(members, id)
      case None => "Sin asignar"
      case Some(i) => OrElse(Some(members[i].name), "Sin asignar")
  }
}
