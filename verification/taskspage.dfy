/** The task list page (src/pages/Tasks.tsx): the filter object sent to
    the task service, the "clear filters" action, and the create/update
    dispatch of the task form. Selections are the raw select values; 'all'
    and the empty string both mean "no filter". */
module TasksPage {
  import opened Wrappers
  import opened Types
  import opened Strings
  import opened Http

  const TasksPageSize := 20
  const AllOption := "all"

  /** The four select boxes. */
  datatype Selections = Selections(project: string, status: string, priority: string, assignee: string)

  /** The `filters` object built in `loadTasks`; absent keys are `None`. */
  datatype TaskFilters = TaskFilters(
    page: int,
    limit: int,
    projectId: Option<string>,
    status: Option<string>,
    priority: Option<string>,
    assignedTo: Option<string>)

  /** `v && v !== 'all'`. */
  predicate IsSelected(v: string) {
    v != "" && v != AllOption
  }

  function OptionalFilter(v: string): (r: Option<string>)
    ensures r.Some? <==> IsSelected(v)
    ensures r.Some? ==> r.value == v
  {
    if v != "" && v != "all" then Some(v) else None
  }

  /** `loadTasks` (Tasks.tsx:96-104): page and limit always, each optional
      key exactly when its selection is a real choice, holding that choice. */
  function BuildFilters(sel: Selections, currentPage: int): (f: TaskFilters)
    ensures f.page == currentPage && f.limit == TasksPageSize
    ensures f.projectId.Some? <==> IsSelected(sel.project)
    ensures f.status.Some? <==> IsSelected(sel.status)
    ensures f.priority.Some? <==> IsSelected(sel.priority)
    ensures f.assignedTo.Some? <==> IsSelected(sel.assignee)
    ensures f.projectId.Some? ==> f.projectId.value == sel.project
    ensures f.status.Some? ==> f.status.value == sel.status
    ensures f.priority.Some? ==> f.priority.value == sel.priority
    ensures f.assignedTo.Some? ==> f.assignedTo.value == sel.assignee
  {
    TaskFilters(
      currentPage, 20,
      OptionalFilter(sel.project), OptionalFilter(sel.status),
      OptionalFilter(sel.priority), OptionalFilter(sel.assignee))
  }

  predicate HasOptionalKey(f: TaskFilters) {
    f.projectId.Some? || f.status.Some? || f.priority.Some? || f.assignedTo.Some?
  }

  /** `hasActiveFilters` (Tasks.tsx:187-190), which shows the clear button:
      it is off exactly when every select box reads as 'all'. */
  function HasActiveFilters(sel: Selections): (b: bool)
    ensures !b <==> Selections(Normalize(sel.project), Normalize(sel.status), Normalize(sel.priority), Normalize(sel.assignee))
                    == Selections(AllOption, AllOption, AllOption, AllOption)
  {
    (sel.project != "" && sel.project != "all")
    || (sel.status != "" && sel.status != "all")
    || (sel.priority != "" && sel.priority != "all")
    || (sel.assignee != "" && sel.assignee != "all")
  }

  /** The clear button is shown exactly when the request is narrowed. */
  lemma ActiveFiltersIffOptionalKey(sel: Selections, currentPage: int)
    ensures HasActiveFilters(sel) <==> HasOptionalKey(BuildFilters(sel, currentPage))
  {
  }

  /** How a selection reads once the filter is built: 'all' when unset. */
  function Normalize(v: string): string {
    if IsSelected(v) then v else AllOption
  }

  /** The selections a filter object stands for. */
  function SelectionsOf(f: TaskFilters): Selections {
    Selections(
      f.projectId.GetOr(AllOption), f.status.GetOr(AllOption),
      f.priority.GetOr(AllOption), f.assignedTo.GetOr(AllOption))
  }

  predicate WellFormed(f: TaskFilters) {
    && f.limit == TasksPageSize
    && (f.projectId.Some? ==> IsSelected(f.projectId.value))
    && (f.status.Some? ==> IsSelected(f.status.value))
    && (f.priority.Some? ==> IsSelected(f.priority.value))
    && (f.assignedTo.Some? ==> IsSelected(f.assignedTo.value))
  }

  /** Building a filter loses only the difference between '' and 'all', and
      every well-formed filter is built from the selections it stands for. */
  lemma FiltersRoundTrip(sel: Selections, currentPage: int, f: TaskFilters)
    ensures SelectionsOf(BuildFilters(sel, currentPage))
         == Selections(Normalize(sel.project), Normalize(sel.status), Normalize(sel.priority), Normalize(sel.assignee))
    ensures WellFormed(BuildFilters(sel, currentPage))
    ensures WellFormed(f) ==> BuildFilters(SelectionsOf(f), f.page) == f
  {
  }

  /** The page's filter and paging state. */
  datatype TasksState = TasksState(selections: Selections, currentPage: int, totalPages: int)

  /** `clearFilters` (Tasks.tsx:179-185). */
  function ClearFilters(st: TasksState): (r: TasksState)
    ensures r.selections == Selections(AllOption, AllOption, AllOption, AllOption)
    ensures r == st.(selections := r.selections, currentPage := 1)
    ensures !HasActiveFilters(r.selections)
    ensures r.currentPage == 1 && r.totalPages == st.totalPages
    ensures BuildFilters(r.selections, r.currentPage) == TaskFilters(1, TasksPageSize, None, None, None, None)
  {
    st.(selections := Selections("all", "all", "all", "all"), currentPage := 1)
  }

  /** The call `handleCreateTask` makes with the submitted form. */
  datatype TaskCall = CreateTask(data: CreateTaskRequest) | UpdateTask(id: string, data: CreateTaskRequest)

  /** Tasks.tsx:120-126: update the task being edited, otherwise create. */
  function SubmitCall(editing: Option<Task>, data: CreateTaskRequest): (c: TaskCall)
    ensures c.data == data
    ensures c.UpdateTask? <==> editing.Some?
    ensures c.UpdateTask? ==> c.id == editing.value.id
  {
    match editing
    case Some(task) => UpdateTask(task.id, data)
    case None => CreateTask(data)
  }

  /** The form dialog's state. */
  datatype FormDialog = FormDialog(isOpen: bool, editing: Option<Task>)

  /** What a save resolves into: the dialog, whether the list is reloaded,
      and the error toast shown, if any. */
  datatype SaveResult = SaveResult(dialog: FormDialog, reload: bool, toast: Option<string>)

  const SaveFailedMessage := "Error al guardar la tarea"

  /** `error.response?.data?.message`. */
  function ServerMessage(e: HttpError): Option<string> {
    match e
    case AxiosError(Some(resp), _, _) => resp.message
    case _ => None
  }

  /** Tasks.tsx:127-133: success closes the dialog, forgets the edited task
      and reloads; failure keeps the dialog as it was and shows the server's
      message or a fixed one. */
  function AfterSubmit(d: FormDialog, result: Result<(), HttpError>): (r: SaveResult)
    ensures result.Success? ==> r == SaveResult(FormDialog(false, None), true, None)
    ensures result.Failure? ==> r.dialog == d && !r.reload && r.toast.Some? && r.toast.value != ""
    ensures result.Failure? && Truthy(ServerMessage(result.error)) ==>
      r.toast == ServerMessage(result.error)
    ensures result.Failure? && !Truthy(ServerMessage(result.error)) ==>
      r.toast == Some(SaveFailedMessage)
  {
    match result
    case Success(_) => SaveResult(d.(isOpen := false, editing := None), true, None)
    case Failure(e) => SaveResult(d, false, Some(OrElse(ServerMessage(e), "Error al guardar la tarea")))
  }

  /** After a successful save the dialog forgets the edited task, so the
      next submission creates a task; after a failed one it still holds
      it, so a retry targets the same task again. */
  lemma SubmitAfterSave(d: FormDialog, e: HttpError, data: CreateTaskRequest)
    ensures SubmitCall(AfterSubmit(d, Success(())).dialog.editing, data) == CreateTask(data)
    ensures SubmitCall(AfterSubmit(d, Failure(e)).dialog.editing, data) == SubmitCall(d.editing, data)
  {
  }
}
