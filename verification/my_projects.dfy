/** The search box of the projects page: a project is listed when the query
    occurs in its title or in its topic, ignoring case. */
module MyProjects {
  import opened Wrappers
  import opened Strings
  import opened Sequences
  import opened Schema

  /** The answer of the projects query, once loaded: its `projects` field,
      when present. */
  datatype ProjectsResponse = ProjectsResponse(projects: Option<seq<Document>>)

  /** `projectsResponse?.projects || []`: the loaded projects, or none while
      nothing is loaded. */
  function LoadedProjects(response: Option<ProjectsResponse>): (projects: seq<Document>)
    ensures response.None? || response.value.projects.None? ==> projects == []
    ensures response.Some? && response.value.projects.Some? ==> projects == response.value.projects.value
  {
    match response
    case None => []
    case Some(r) => r.projects.GetOr([])
  }

  /** `text.toLowerCase().includes(query.toLowerCase())`. */
  predicate MatchesText(text: string, query: string) {
    Contains(ToLower(text), ToLower(query))
  }

  /** The search predicate: the query is in the title, or in the topic when
      the project has one. */
  predicate Matches(project: Document, query: string) {
    MatchesText(project.title, query)
    || (project.content.topic.Some? && MatchesText(project.content.topic.value, query))
  }

  /** The run one project contributes to the list shown: itself, when it
      matches. */
  function MatchRun(query: string): Document -> seq<Document> {
    (d: Document) => if Matches(d, query) then [d] else []
  }

  /** `filteredProjects`: the matching projects, in the order loaded. */
  function FilteredProjects(projects: seq<Document>, query: string): seq<Document> {
    FlatMap(MatchRun(query), projects)
  }

  /** A project is listed exactly when it is loaded and matches. */
  lemma FilteredMembers(projects: seq<Document>, query: string, d: Document)
    ensures d in FilteredProjects(projects, query) <==> d in projects && Matches(d, query)
  {
    FlatMapMember(MatchRun(query), projects, d);
    if d in projects && Matches(d, query) {
      var i :| 0 <= i < |projects| && projects[i] == d;
      assert d in MatchRun(query)(projects[i]);
    }
  }

  /** The empty query occurs in every text. */
  lemma EmptyQueryMatches(d: Document)
    ensures Matches(d, "")
  {
    assert ToLower("") == "";
  }

  /** An empty search box lists every project, in order. */
  lemma {:induction false} EmptyQueryKeepsAll(projects: seq<Document>)
    ensures FilteredProjects(projects, "") == projects
  {
    if projects != [] {
      var n := |projects| - 1;
      EmptyQueryKeepsAll(projects[..n]);
      EmptyQueryMatches(projects[n]);
      assert projects[..n] + [projects[n]] == projects;
    }
  }

  /** Filtering keeps the loaded order: the matches of a list's first part
      come before those of its second part. */
  lemma FilteredInOrder(a: seq<Document>, b: seq<Document>, query: string)
    ensures FilteredProjects(a + b, query) == FilteredProjects(a, query) + FilteredProjects(b, query)
  {
    FlatMapAppend(MatchRun(query), a, b);
  }

  /** Nothing loaded means nothing listed. */
  lemma NothingLoaded(response: Option<ProjectsResponse>, query: string)
    requires response.None? || response.value.projects.None?
    ensures FilteredProjects(LoadedProjects(response), query) == []
  {
  }

  /** A project without a topic can only match through its title. */
  lemma NoTopicTitleOnly(d: Document, query: string)
    requires d.content.topic.None?
    ensures Matches(d, query) <==> Contains(ToLower(d.title), ToLower(query))
  {
  }

  /** Lower-casing twice is lower-casing once. */
  lemma ToLowerTwice(s: string)
    ensures ToLower(ToLower(s)) == ToLower(s)
  {
    forall i | 0 <= i < |s|
      ensures ToLower(ToLower(s))[i] == ToLower(s)[i]
    {
    }
  }

  /** The search ignores the case of the query: typing it in capitals lists
      the same projects. */
  lemma QueryCaseIgnored(d: Document, query: string)
    ensures Matches(d, query) <==> Matches(d, ToLower(query))
  {
    ToLowerTwice(query);
  }
}
