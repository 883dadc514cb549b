/** URL building in src/service/projectService.ts. The query string is a
    template literal: page and limit are rendered as decimals and the
    search text is spliced in verbatim, without escaping. */
module ProjectService {
  import opened Wrappers
  import opened Strings

  const ProjectsQueryPrefix := "/projects?"
  const ProjectsPathPrefix := "/projects/"

  /** The `getProjects` template with its three slots already rendered:
      the prefix, then the page, limit and search fields joined by '&'. */
  function QueryUrl(page: string, limit: string, search: string): string {
    ProjectsQueryPrefix + (("page=" + page) + "&" + (("limit=" + limit) + "&" + ("search=" + search)))
  }

  /** The search field is always the last thing in the URL, even when the
      search text is empty. */
  lemma QueryUrlEndsWithSearch(page: string, limit: string, search: string)
    ensures var url := QueryUrl(page, limit, search);
            && |url| >= |"&search="| + |search|
            && url[|url| - |search| - |"&search="|..] == "&search=" + search
  {
    var head := ProjectsQueryPrefix + (("page=" + page) + "&" + ("limit=" + limit));
    assert QueryUrl(page, limit, search) == head + ("&search=" + search);
  }

  /** `getProjects(page = 1, limit = 10, search = "")`: the URL requested.
      All three parameters are always present, in the order page, limit,
      search, even when the search text is empty. */
  function ProjectsUrl(page: int := 1, limit: int := 10, search: string := ""): (url: string)
    ensures |url| >= |ProjectsQueryPrefix| && url[..|ProjectsQueryPrefix|] == ProjectsQueryPrefix
    ensures |url| >= |"&search="| + |search|
    ensures url[|url| - |search| - |"&search="|..] == "&search=" + search
  {
    QueryUrlEndsWithSearch(IntToDecimal(page), IntToDecimal(limit), search);
    QueryUrl(IntToDecimal(page), IntToDecimal(limit), search)
  }

  /** `name=value` read back from one field of a query string. */
  function FieldValue(field: string, key: string): Option<string> {
    if |field| >= |key| && field[..|key|] == key then Some(field[|key|..]) else None
  }

  /** Reads a projects query back into (page, limit, search), the way a
      server splitting the query at '&' would. */
  function ParseProjectsQuery(url: string): Option<(int, int, string)> {
    if |url| < |ProjectsQueryPrefix| || url[..|ProjectsQueryPrefix|] != ProjectsQueryPrefix then None
    else
      var fields := Split(url[|ProjectsQueryPrefix|..], '&');
      if |fields| != 3 then None
      else
        match (FieldValue(fields[0], "page="), FieldValue(fields[1], "limit="), FieldValue(fields[2], "search="))
        case (Some(p), Some(l), Some(s)) =>
          (match (ParseInt(p), ParseInt(l))
           case (Some(page), Some(limit)) => Some((page, limit, s))
           case _ => None)
        case _ => None
  }

  lemma NoAmpersandInDecimal(i: int)
    ensures '&' !in IntToDecimal(i)
  {
  }

  lemma NotInConcat(x: string, y: string, c: char)
    requires c !in x && c !in y
    ensures c !in x + y
  {
  }

  lemma SplitQuery(a: string, b: string, c: string)
    requires '&' !in a && '&' !in b
    ensures Split(a + "&" + (b + "&" + c), '&') == [a, b] + Split(c, '&')
  {
    SplitAfter(b, '&', c);
    SplitAfter(a, '&', b + "&" + c);
    var rest := Split(c, '&');
    assert [a] + ([b] + rest) == [a, b] + rest;
  }

  /** The query of a URL built from '&'-free page and limit texts splits
      into the page field, the limit field and whatever the search yields. */
  lemma QueryFields(p: string, l: string, search: string)
    requires '&' !in p && '&' !in l
    ensures var url := QueryUrl(p, l, search);
            && |url| >= |ProjectsQueryPrefix| && url[..|ProjectsQueryPrefix|] == ProjectsQueryPrefix
            && Split(url[|ProjectsQueryPrefix|..], '&') == ["page=" + p, "limit=" + l] + Split("search=" + search, '&')
  {
    var query := ("page=" + p) + "&" + (("limit=" + l) + "&" + ("search=" + search));
    assert QueryUrl(p, l, search)[|ProjectsQueryPrefix|..] == query;
    NotInConcat("page=", p, '&');
    NotInConcat("limit=", l, '&');
    SplitQuery("page=" + p, "limit=" + l, "search=" + search);
  }

  /** With an '&' in the search text the query has a fourth field. */
  lemma AmpersandBreaksQuery(page: int, limit: int, search: string)
    requires '&' in search
    ensures ParseProjectsQuery(ProjectsUrl(page, limit, search)) == None
  {
    NoAmpersandInDecimal(page);
    NoAmpersandInDecimal(limit);
    QueryFields(IntToDecimal(page), IntToDecimal(limit), search);
    var c := "search=" + search;
    assert c[7..] == search;
    assert '&' in c;
  }

  /** A URL whose query splits into a page, a limit and a search field
      with numeric page and limit reads back as those three values. */
  lemma ReadThreeFields(url: string, p: string, l: string, search: string)
    requires |url| >= |ProjectsQueryPrefix| && url[..|ProjectsQueryPrefix|] == ProjectsQueryPrefix
    requires Split(url[|ProjectsQueryPrefix|..], '&') == ["page=" + p, "limit=" + l, "search=" + search]
    requires ParseInt(p).Some? && ParseInt(l).Some?
    ensures ParseProjectsQuery(url) == Some((ParseInt(p).value, ParseInt(l).value, search))
  {
    var fields := ["page=" + p, "limit=" + l, "search=" + search];
    assert FieldValue(fields[0], "page=") == Some(p);
    assert FieldValue(fields[1], "limit=") == Some(l);
    assert FieldValue(fields[2], "search=") == Some(search);
  }

  /** Without one, the three fields read back as the arguments. */
  lemma PlainSearchReadsBack(page: int, limit: int, search: string)
    requires '&' !in search
    ensures ParseProjectsQuery(ProjectsUrl(page, limit, search)) == Some((page, limit, search))
  {
    var p := IntToDecimal(page);
    var l := IntToDecimal(limit);
    NoAmpersandInDecimal(page);
    NoAmpersandInDecimal(limit);
    QueryFields(p, l, search);
    var c := "search=" + search;
    NotInConcat("search=", search, '&');
    assert Split(c, '&') == [c];
    var url := ProjectsUrl(page, limit, search);
    assert url == QueryUrl(p, l, search);
    assert ["page=" + p, "limit=" + l] + [c] == ["page=" + p, "limit=" + l, c];
    ParseIntOfDecimal(page);
    ParseIntOfDecimal(limit);
    ReadThreeFields(url, p, l, search);
  }

  /** The query reads back as the arguments it was built from exactly when
      the search text holds no '&'; otherwise the extra field breaks it. */
  lemma ProjectsUrlRoundTrip(page: int, limit: int, search: string)
    ensures ParseProjectsQuery(ProjectsUrl(page, limit, search)) == Some((page, limit, search))
            <==> '&' !in search
  {
    if '&' in search {
      AmpersandBreaksQuery(page, limit, search);
    } else {
      PlainSearchReadsBack(page, limit, search);
    }
  }

  /** Called with no arguments, the first page of ten with no search. */
  lemma ProjectsUrlDefaults()
    ensures ProjectsUrl() == "/projects?page=1&limit=10&search="
  {
    assert DigitChar(0) == '0' && DigitChar(1) == '1';
    assert IntToDecimal(1) == "1";
    assert NatToDecimal(10) == NatToDecimal(1) + [DigitChar(0)];
    assert IntToDecimal(10) == "10";
    assert ProjectsUrl() == QueryUrl("1", "10", "");
  }

  /** `getProject(id)`, and likewise the update and delete paths. */
  function ProjectPath(id: string): (path: string)
    ensures |path| == |ProjectsPathPrefix| + |id|
    ensures path[..|ProjectsPathPrefix|] == ProjectsPathPrefix && path[|ProjectsPathPrefix|..] == id
  {
    "/projects/" + id
  }

  function ParseProjectPath(path: string): Option<string> {
    if |path| >= |ProjectsPathPrefix| && path[..|ProjectsPathPrefix|] == ProjectsPathPrefix
    then Some(path[|ProjectsPathPrefix|..])
    else None
  }

  /** The project id is recovered from its detail path, and distinct ids
      give distinct paths. */
  lemma ProjectPathRoundTrip(id: string, other: string)
    ensures ParseProjectPath(ProjectPath(id)) == Some(id)
    ensures ProjectPath(id) == ProjectPath(other) ==> id == other
  {
  }
}
