/** The records the front end exchanges with the REST service, and the
    string enumerations they carry (src/types/index.ts). */
module Types {
  import opened Wrappers

  /** `ProjectStatus`: 'ACTIVE' | 'COMPLETED' | 'ON_HOLD'. */
  datatype ProjectStatus = Active | Completed | OnHold

  /** `TaskStatus`: 'TODO' | 'IN_PROGRESS' | 'COMPLETED'. */
  datatype TaskStatus = Todo | InProgress | Completed

  /** `TaskPriority`: 'LOW' | 'MEDIUM' | 'HIGH' | 'URGENT'. */
  datatype TaskPriority = Low | Medium | High | Urgent

  /** Wire spelling of a project status. */
  function ProjectStatusName(s: ProjectStatus): string {
    match s
    case Active => "ACTIVE"
    case Completed => "COMPLETED"
    case OnHold => "ON_HOLD"
  }

  function ParseProjectStatus(s: string): Option<ProjectStatus> {
    if s == "ACTIVE" then Some(Active)
    else if s == "COMPLETED" then Some(ProjectStatus.Completed)
    else if s == "ON_HOLD" then Some(OnHold)
    else None
  }

  /** Wire spelling of a task status. */
  function TaskStatusName(s: TaskStatus): string {
    match s
    case Todo => "TODO"
    case InProgress => "IN_PROGRESS"
    case Completed => "COMPLETED"
  }

  function ParseTaskStatus(s: string): Option<TaskStatus> {
    if s == "TODO" then Some(Todo)
    else if s == "IN_PROGRESS" then Some(InProgress)
    else if s == "COMPLETED" then Some(TaskStatus.Completed)
    else None
  }

  /** Wire spelling of a task priority. */
  function PriorityName(p: TaskPriority): string {
    match p
    case Low => "LOW"
    case Medium => "MEDIUM"
    case High => "HIGH"
    case Urgent => "URGENT"
  }

  function ParsePriority(s: string): Option<TaskPriority> {
    if s == "LOW" then Some(Low)
    else if s == "MEDIUM" then Some(Medium)
    else if s == "HIGH" then Some(High)
    else if s == "URGENT" then Some(Urgent)
    else None
  }

  /** Each enumeration's spelling and parsing are mutually inverse: parsing
      accepts exactly the spellings, and gives back the value spelt. */
  lemma ProjectStatusRoundTrip(st: ProjectStatus, s: string)
    ensures ParseProjectStatus(ProjectStatusName(st)) == Some(st)
    ensures ParseProjectStatus(s) == Some(st) <==> ProjectStatusName(st) == s
  {
  }

  lemma TaskStatusRoundTrip(st: TaskStatus, s: string)
    ensures ParseTaskStatus(TaskStatusName(st)) == Some(st)
    ensures ParseTaskStatus(s) == Some(st) <==> TaskStatusName(st) == s
  {
  }

  lemma PriorityRoundTrip(p: TaskPriority, s: string)
    ensures ParsePriority(PriorityName(p)) == Some(p)
    ensures ParsePriority(s) == Some(p) <==> PriorityName(p) == s
  {
  }

  /** `User` (index.ts:14-19). */
  datatype User = User(id: string, email: string, name: string, createdAt: Option<string>)

  /** `Project` (index.ts:41-49). */
  datatype Project = Project(
    id: string,
    name: string,
    description: string,
    status: ProjectStatus,
    createdAt: Option<string>,
    updatedAt: Option<string>,
    tasks: Option<seq<Task>>)

  /** `Task` (index.ts:74-87). */
  datatype Task = Task(
    id: string,
    title: string,
    description: string,
    status: TaskStatus,
    priority: TaskPriority,
    dueDate: string,
    projectId: string,
    assignedTo: Option<string>,
    createdAt: Option<string>,
    updatedAt: Option<string>,
    project: Option<Project>,
    assignee: Option<User>)

  /** `TeamMember` (index.ts:118-122). */
  datatype TeamMember = TeamMember(id: string, name: string, email: string)

  /** `CreateProjectRequest` (index.ts:57-61), also sent on update. */
  datatype ProjectRequest = ProjectRequest(name: string, description: string, status: ProjectStatus)

  /** `CreateTaskRequest` (index.ts:94-101). */
  datatype CreateTaskRequest = CreateTaskRequest(
    title: string,
    description: string,
    projectId: string,
    priority: TaskPriority,
    dueDate: string,
    assignedTo: Option<string>)
}
