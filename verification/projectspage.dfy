/** The project list page (src/pages/Projects.tsx): the local status
    filter, the description preview, the search reset, the request URL,
    and the create/edit dialog. */
module ProjectsPage {
  import opened Wrappers
  import opened Types
  import opened Strings
  import opened Seqs
  import opened ProjectService

  const AllStatuses := "all"
  const PreviewLength := 100
  const ProjectsPageSize := 10

  /** How JavaScript renders a plain object inside a template literal. */
  const ObjectText := "[object Object]"

  predicate HasStatus(p: Project, statusFilter: string) {
    ProjectStatusName(p.status) == statusFilter
  }

  /** `filteredProjects` (Projects.tsx:125-127). */
  function FilterByStatus(projects: seq<Project>, statusFilter: string): (r: seq<Project>)
    ensures statusFilter == AllStatuses ==> r == projects
    ensures statusFilter != AllStatuses ==> forall i :: 0 <= i < |r| ==> HasStatus(r[i], statusFilter)
    ensures statusFilter != AllStatuses ==>
      forall p :: p in projects && HasStatus(p, statusFilter) ==> multiset(r)[p] == multiset(projects)[p]
    ensures multiset(r) <= multiset(projects)
  {
    if statusFilter == AllStatuses then projects
    else Keep(projects, (p: Project) => HasStatus(p, statusFilter))
  }

  /** The filter keeps the list's order, and applying it again changes
      nothing. */
  lemma FilterByStatusOrderedAndIdempotent(projects: seq<Project>, statusFilter: string)
    ensures IsSubsequence(FilterByStatus(projects, statusFilter), projects)
    ensures FilterByStatus(FilterByStatus(projects, statusFilter), statusFilter)
         == FilterByStatus(projects, statusFilter)
  {
    if statusFilter != AllStatuses {
      var f := (p: Project) => HasStatus(p, statusFilter);
      KeepIsSubsequence(projects, f);
      KeepIdempotent(projects, f);
    } else {
      KeepAll(projects, (p: Project) => true);
      KeepIsSubsequence(projects, (p: Project) => true);
    }
  }

  /** A filter value that is neither 'all' nor a status spelling keeps
      nothing. */
  lemma UnknownStatusFilterKeepsNothing(projects: seq<Project>, statusFilter: string)
    requires statusFilter != AllStatuses && ParseProjectStatus(statusFilter).None?
    ensures FilterByStatus(projects, statusFilter) == []
  {
    var r := FilterByStatus(projects, statusFilter);
    if |r| > 0 {
      ProjectStatusRoundTrip(r[0].status, statusFilter);
    }
  }

  /** The card's description preview (Projects.tsx:197-198): short texts
      whole, longer ones cut to 100 characters and marked with "...". */
  function DescriptionPreview(description: string): (r: string)
    ensures |description| <= PreviewLength ==> r == description
    ensures |description| > PreviewLength ==> r == description[..PreviewLength] + "..."
  {
    Truncate(description, PreviewLength)
  }

  /** The page's paging and filter state. */
  datatype ProjectsView = ProjectsView(currentPage: int, totalPages: int, search: string, statusFilter: string)

  /** The URL `fetchProjects` requests, with its object argument taken as
      the page (Projects.tsx:53-57 against projectService.ts:5-12): the
      object renders as "[object Object]" and the missing limit and search
      take their defaults. */
  function FetchProjectsUrlAsWritten(currentPage: int, search: string): (url: string)
    ensures url == QueryUrl(ObjectText, "10", "")
  {
    assert DigitChar(0) == '0' && DigitChar(1) == '1';
    assert NatToDecimal(10) == NatToDecimal(1) + [DigitChar(0)];
    assert IntToDecimal(10) == "10";
    QueryUrl(ObjectText, IntToDecimal(10), "")
  }

  /** The request the page issues ignores its page and its search, and
      carries no readable page number at all. */
  lemma FetchAsWrittenIgnoresPageAndSearch(page1: int, search1: string, page2: int, search2: string)
    ensures FetchProjectsUrlAsWritten(page1, search1) == FetchProjectsUrlAsWritten(page2, search2)
    ensures ParseProjectsQuery(FetchProjectsUrlAsWritten(page1, search1)) == None
  {
    var pageText := ObjectText;
    assert '&' !in pageText;
    NoAmpersandInDecimal(10);
    QueryFields(pageText, IntToDecimal(10), "");
    var url := FetchProjectsUrlAsWritten(page1, search1);
    var fields := Split(url[|ProjectsQueryPrefix|..], '&');
    assert fields[0] == "page=" + pageText;
    assert FieldValue(fields[0], "page=") == Some(pageText);
    assert pageText[0] == '[';
    assert !IsDigit(pageText[0]);
    assert ParseInt(pageText) == None;
  }

  /** The URL the page evidently means to request: its own page, ten
      projects per page, and its search text, positionally. */
  function FetchProjectsUrl(currentPage: int, search: string): (url: string)
    ensures '&' !in search ==>
      ParseProjectsQuery(url) == Some((currentPage, ProjectsPageSize, search))
  {
    ProjectsUrlRoundTrip(currentPage, ProjectsPageSize, search);
    ProjectsUrl(currentPage, ProjectsPageSize, search)
  }

  /** `handleSearch` (Projects.tsx:67-71): back to the first page, with the
      search text and status filter kept. */
  function HandleSearch(v: ProjectsView): (r: ProjectsView)
    ensures r.currentPage == 1
    ensures r.search == v.search && r.statusFilter == v.statusFilter && r.totalPages == v.totalPages
  {
    v.(currentPage := 1)
  }

  /** With the corrected request, a search asks for the first page of
      that search. */
  lemma SearchRequestsFirstPage(v: ProjectsView)
    requires '&' !in v.search
    ensures var r := HandleSearch(v);
            ParseProjectsQuery(FetchProjectsUrl(r.currentPage, r.search)) == Some((1, ProjectsPageSize, v.search))
  {
  }

  /** With the request as written, a search, whatever its text, leaves the
      URL exactly as it was. */
  lemma SearchLeavesWrittenRequestUnchanged(v: ProjectsView)
    ensures var r := HandleSearch(v);
            FetchProjectsUrlAsWritten(r.currentPage, r.search) == FetchProjectsUrlAsWritten(v.currentPage, v.search)
  {
  }

  /** The create/edit dialog and its fields. */
  datatype ProjectForm = ProjectForm(
    isOpen: bool,
    editing: Option<Project>,
    name: string,
    description: string,
    status: ProjectStatus)

  /** `openCreateModal` (Projects.tsx:73-79). */
  function OpenCreateModal(f: ProjectForm): (r: ProjectForm)
    ensures r.isOpen && r.editing == None
    ensures r.name == "" && r.description == "" && r.status == Active
  {
    f.(editing := None, name := "", description := "", status := Active, isOpen := true)
  }

  /** `openEditModal` (Projects.tsx:81-87). */
  function OpenEditModal(f: ProjectForm, p: Project): (r: ProjectForm)
    ensures r.isOpen && r.editing == Some(p)
    ensures r.name == p.name && r.description == p.description && r.status == p.status
  {
    f.(editing := Some(p), name := p.name, description := p.description, status := p.status, isOpen := true)
  }

  datatype ProjectCall = CreateProject(data: ProjectRequest) | UpdateProject(id: string, data: ProjectRequest)

  /** `handleSubmit` (Projects.tsx:93-103): the form's fields, sent as an
      update of the project being edited or as a new project. */
  function SubmitCall(f: ProjectForm): (c: ProjectCall)
    ensures c.data == ProjectRequest(f.name, f.description, f.status)
    ensures c.UpdateProject? <==> f.editing.Some?
    ensures c.UpdateProject? ==> c.id == f.editing.value.id
  {
    var data := ProjectRequest(f.name, f.description, f.status);
    match f.editing
    case Some(p) => UpdateProject(p.id, data)
    case None => CreateProject(data)
  }

  /** Opening a project for editing and saving it untouched sends back
      exactly its own fields; a new project starts blank and active. */
  lemma UntouchedFormsRoundTrip(f: ProjectForm, p: Project)
    ensures SubmitCall(OpenEditModal(f, p)) == UpdateProject(p.id, ProjectRequest(p.name, p.description, p.status))
    ensures SubmitCall(OpenCreateModal(f)) == CreateProject(ProjectRequest("", "", Active))
  {
  }
}
