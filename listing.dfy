/** The read-only listing commands and the filter clauses they build from flags. */
module Listing {
  import opened Wrappers
  import opened Requests
  import opened Args

  /** `list-teams` takes no arguments and always issues the teams query. */
  function ListTeams(args: seq<string>): (r: Result<Request, Error>)
    ensures r == Success(TeamsQuery)
  {
    Success(TeamsQuery)
  }

  /** The clause `list-projects` puts in front of `orderBy`. */
  function ProjectsFilterClause(args: seq<string>): (clause: string)
    ensures clause == "" <==> Given(args, "--team").None?
    ensures Given(args, "--team").Some? ==>
      var t := Given(args, "--team").value;
      clause == "filter: { accessibleTeams: { some: { key: { eq: \"" + t + "\" } } } }"
  {
    match Given(args, "--team")
    case Some(t) => "filter: { accessibleTeams: { some: { key: { eq: \"" + t + "\" } } } }"
    case None => ""
  }

  function ListProjects(args: seq<string>): (r: Result<Request, Error>)
    ensures r == Success(ProjectsQuery(ProjectsFilterClause(args)))
    ensures r.value.filterClause == "" <==> Given(args, "--team").None?
  {
    Success(ProjectsQuery(ProjectsFilterClause(args)))
  }

  /**
   * `list-states`: the states of one team when `--team` has a value, else
   * every workflow state; a team the server does not know is an error.
   */
  function ListStates(args: seq<string>, lookups: Lookups): (r: Result<Request, Error>)
    ensures Given(args, "--team").None? ==> r == Success(StatesQuery(None))
    ensures Given(args, "--team").Some? ==>
      r == if lookups.teamId.Some? then Success(StatesQuery(Given(args, "--team")))
           else Failure(TeamNotFound(Given(args, "--team").value))
  {
    match Given(args, "--team")
    case None => Success(StatesQuery(None))
    case Some(t) => if lookups.teamId.None? then Failure(TeamNotFound(t)) else Success(StatesQuery(Some(t)))
  }

  /** The four filters of `list-issues`, in the order their fragments are pushed. */
  datatype IssueFilter = ByTeam | ByStatus | ByAssignee | ByLabel

  const IssueFilterOrder: seq<IssueFilter> := [ByTeam, ByStatus, ByAssignee, ByLabel]

  function Rank(f: IssueFilter): nat {
    match f
    case ByTeam => 0
    case ByStatus => 1
    case ByAssignee => 2
    case ByLabel => 3
  }

  function FlagOf(f: IssueFilter): string {
    match f
    case ByTeam => "--team"
    case ByStatus => "--status"
    case ByAssignee => "--assignee"
    case ByLabel => "--label"
  }

  /** The GraphQL filter fragment for one filter and its value. */
  function Fragment(f: IssueFilter, v: string): string {
    match f
    case ByTeam => "team: { key: { eq: \"" + v + "\" } }"
    case ByStatus => "state: { name: { eq: \"" + v + "\" } }"
    case ByAssignee => "assignee: { name: { containsIgnoreCase: \"" + v + "\" } }"
    case ByLabel => "labels: { some: { name: { eq: \"" + v + "\" } } }"
  }

  /** The filter `f` with its value when its flag has one, else nothing. */
  function Piece(args: seq<string>, f: IssueFilter): seq<(IssueFilter, string)> {
    match Given(args, FlagOf(f))
    case Some(v) => [(f, v)]
    case None => []
  }

  /** The filters among `fs` whose flag has a value, each with that value, in the order of `fs`. */
  function GivenFilters(args: seq<string>, fs: seq<IssueFilter>): seq<(IssueFilter, string)> {
    if |fs| == 0 then [] else Piece(args, fs[0]) + GivenFilters(args, fs[1..])
  }

  function Fragments(gs: seq<(IssueFilter, string)>): (r: seq<string>)
    ensures |r| == |gs|
    ensures forall i :: 0 <= i < |gs| ==> r[i] == Fragment(gs[i].0, gs[i].1)
  {
    if |gs| == 0 then [] else [Fragment(gs[0].0, gs[0].1)] + Fragments(gs[1..])
  }

  /** The fragments wrapped into a filter argument, or nothing at all when there is none. */
  function FilterClause(fragments: seq<string>): string {
    if |fragments| > 0 then "filter: { " + Join(fragments, ", ") + " }" else ""
  }

  /** A filter is listed, with a value, exactly when it is one of `fs` and its flag has that value. */
  lemma {:induction false} GivenFiltersMembers(args: seq<string>, fs: seq<IssueFilter>, f: IssueFilter, v: string)
    ensures (f, v) in GivenFilters(args, fs) <==> f in fs && Given(args, FlagOf(f)) == Some(v)
  {
    if |fs| > 0 {
      GivenFiltersMembers(args, fs[1..], f, v);
      assert fs == [fs[0]] + fs[1..];
    }
  }

  /** The filters of `gs` come in strictly increasing rank: no filter twice, none out of order. */
  predicate Ascending(gs: seq<(IssueFilter, string)>) {
    forall i, j :: 0 <= i < j < |gs| ==> Rank(gs[i].0) < Rank(gs[j].0)
  }

  /** The listed filters keep the order of `fs`: with `fs` ascending by rank, so are they. */
  lemma {:induction false} GivenFiltersOrdered(args: seq<string>, fs: seq<IssueFilter>)
    requires forall i, j :: 0 <= i < j < |fs| ==> Rank(fs[i]) < Rank(fs[j])
    ensures Ascending(GivenFilters(args, fs))
  {
    if |fs| > 0 {
      GivenFiltersOrdered(args, fs[1..]);
      var head, rest := Piece(args, fs[0]), GivenFilters(args, fs[1..]);
      forall p | p in rest ensures Rank(fs[0]) < Rank(p.0) {
        GivenFiltersMembers(args, fs[1..], p.0, p.1);
        var j :| 0 <= j < |fs[1..]| && fs[1..][j] == p.0;
        assert fs[j + 1] == p.0;
      }
      assert |head| <= 1 && (|head| == 1 ==> head[0].0 == fs[0]);
      var gs := head + rest;
      forall i, j | 0 <= i < j < |gs| ensures Rank(gs[i].0) < Rank(gs[j].0) {
        if i < |head| {
          assert gs[i].0 == fs[0];
          assert gs[j] == rest[j - |head|] && rest[j - |head|] in rest;
        } else {
          assert gs[i] == rest[i - |head|] && gs[j] == rest[j - |head|];
        }
      }
    }
  }

  /** The four `list-issues` filters, in the order team, status, assignee, label. */
  function IssueFilters(args: seq<string>): seq<(IssueFilter, string)> {
    GivenFilters(args, IssueFilterOrder)
  }

  /** The `--limit` text of `list-issues`, "25" when the flag has no value. */
  function IssuesLimit(args: seq<string>): (limit: string)
    ensures limit != ""
    ensures match GetFlag(args, "--limit")
      case Present(v) => limit == if v == "" then "25" else v
      case _ => limit == "25"
  {
    Given(args, "--limit").GetOr("25")
  }

  /**
   * `list-issues` pushes one fragment per flag that has a value, in the
   * fixed order, and joins them; with none, there is no filter clause.
   */
  method ListIssues(args: seq<string>) returns (r: Result<Request, Error>)
    ensures r == Success(IssuesQuery(IssuesLimit(args), FilterClause(Fragments(IssueFilters(args)))))
  {
    var limit := Given(args, "--limit").GetOr("25");
    var filters: seq<string> := [];
    ghost var pushed: seq<(IssueFilter, string)> := [];

    var team := Given(args, FlagOf(ByTeam));
    if team.Some? {
      FragmentsPush(pushed, ByTeam, team.value);
      filters := filters + [Fragment(ByTeam, team.value)];
      pushed := pushed + [(ByTeam, team.value)];
    }
    assert pushed == Piece(args, ByTeam);
    var status := Given(args, FlagOf(ByStatus));
    if status.Some? {
      FragmentsPush(pushed, ByStatus, status.value);
      filters := filters + [Fragment(ByStatus, status.value)];
      pushed := pushed + [(ByStatus, status.value)];
    }
    assert pushed == Piece(args, ByTeam) + Piece(args, ByStatus);
    var assignee := Given(args, FlagOf(ByAssignee));
    if assignee.Some? {
      FragmentsPush(pushed, ByAssignee, assignee.value);
      filters := filters + [Fragment(ByAssignee, assignee.value)];
      pushed := pushed + [(ByAssignee, assignee.value)];
    }
    assert pushed == Piece(args, ByTeam) + Piece(args, ByStatus) + Piece(args, ByAssignee);
    var labelName := Given(args, FlagOf(ByLabel));
    if labelName.Some? {
      FragmentsPush(pushed, ByLabel, labelName.value);
      filters := filters + [Fragment(ByLabel, labelName.value)];
      pushed := pushed + [(ByLabel, labelName.value)];
    }
    IssueFiltersUnfold(args);
    assert pushed == IssueFilters(args);
    r := Success(IssuesQuery(limit, FilterClause(filters)));
  }

  /** Pushing a filter pushes its fragment. */
  lemma FragmentsPush(gs: seq<(IssueFilter, string)>, f: IssueFilter, v: string)
    ensures Fragments(gs + [(f, v)]) == Fragments(gs) + [Fragment(f, v)]
  {
  }

  /** The `list-issues` filters are the four pieces, one after the other. */
  lemma IssueFiltersUnfold(args: seq<string>)
    ensures IssueFilters(args) ==
      Piece(args, ByTeam) + Piece(args, ByStatus) + Piece(args, ByAssignee) + Piece(args, ByLabel)
  {
    var o := IssueFilterOrder;
    assert o[1..][1..][1..][1..] == [];
    calc {
      GivenFilters(args, o);
      Piece(args, ByTeam) + GivenFilters(args, o[1..]);
      Piece(args, ByTeam) + (Piece(args, ByStatus) + GivenFilters(args, o[1..][1..]));
      Piece(args, ByTeam) + (Piece(args, ByStatus) + (Piece(args, ByAssignee) + GivenFilters(args, o[1..][1..][1..])));
      Piece(args, ByTeam) + (Piece(args, ByStatus) + (Piece(args, ByAssignee) + (Piece(args, ByLabel) + [])));
    }
  }

  /** The `list-issues` clause is empty exactly when none of the four filter flags has a value. */
  lemma IssueClauseEmpty(args: seq<string>)
    ensures FilterClause(Fragments(IssueFilters(args))) == "" <==>
      forall f :: f in IssueFilterOrder ==> Given(args, FlagOf(f)).None?
  {
    var gs := IssueFilters(args);
    if gs != [] {
      GivenFiltersMembers(args, IssueFilterOrder, gs[0].0, gs[0].1);
      assert Join(Fragments(gs), ", ") + " }" != "";
    } else {
      forall f | f in IssueFilterOrder ensures Given(args, FlagOf(f)).None? {
        if Given(args, FlagOf(f)).Some? {
          GivenFiltersMembers(args, IssueFilterOrder, f, Given(args, FlagOf(f)).value);
        }
      }
    }
  }

  /** Each flag contributes at most one fragment, and they come in the order team, status, assignee, label. */
  lemma IssueFiltersShape(args: seq<string>)
    ensures Ascending(IssueFilters(args))
    ensures forall f, v :: (f, v) in IssueFilters(args) <==> Given(args, FlagOf(f)) == Some(v)
  {
    var o := IssueFilterOrder;
    assert forall i :: 0 <= i < |o| ==> Rank(o[i]) == i;
    GivenFiltersOrdered(args, o);
    forall f, v ensures (f, v) in IssueFilters(args) <==> Given(args, FlagOf(f)) == Some(v) {
      GivenFiltersMembers(args, o, f, v);
      assert o[Rank(f)] == f;
    }
  }
}
