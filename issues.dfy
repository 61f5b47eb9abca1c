/**
 * Commands that address one issue by its identifier, and full-text search:
 * `get-issue`, `search-issues`, `update-status`, `add-comment`.
 */
module Issues {
  import opened Wrappers
  import opened Requests
  import opened Args
  import Identifier

  /**
   * `resolveIssueId`: a malformed identifier is rejected before any lookup;
   * a well-formed one resolves to the id of the first matching issue.
   */
  function ResolveIssueId(identifier: string, lookups: Lookups): (r: Result<string, Error>)
    ensures !Identifier.MatchesPattern(identifier) ==> r == Failure(InvalidIdentifier(identifier))
    ensures Identifier.MatchesPattern(identifier) ==>
      r == if lookups.issue.Some? then Success(lookups.issue.value.id) else Failure(IssueNotFound(identifier))
  {
    match Identifier.Parse(identifier)
    case Failure(e) => Failure(e)
    case Success(_) =>
      if lookups.issue.None? then Failure(IssueNotFound(identifier)) else Success(lookups.issue.value.id)
  }

  /** `get-issue <IDENTIFIER>`: query the issue by team key and number. */
  function GetIssue(args: seq<string>, lookups: Lookups): (r: Result<Request, Error>)
    ensures ArgAt(args, 0).None? ==> r == Failure(Usage("get-issue"))
    ensures ArgAt(args, 0).Some? && !Identifier.MatchesPattern(args[0]) ==>
      r == Failure(InvalidIdentifier(args[0]))
    ensures ArgAt(args, 0).Some? && Identifier.MatchesPattern(args[0]) && lookups.issue.None? ==>
      r == Failure(IssueNotFound(args[0]))
    ensures ArgAt(args, 0).Some? && Identifier.MatchesPattern(args[0]) && lookups.issue.Some? ==> r.Success?
    ensures r.Success? ==>
      && r.value.IssueQuery? && lookups.issue.Some?
      && Identifier.Parse(args[0]) == Success(Identifier.Identifier(r.value.teamKey, r.value.number))
  {
    match ArgAt(args, 0)
    case None => Failure(Usage("get-issue"))
    case Some(identifier) =>
      match Identifier.Parse(identifier)
      case Failure(e) => Failure(e)
      case Success(id) =>
        if lookups.issue.None? then Failure(IssueNotFound(identifier))
        else Success(IssueQuery(id.teamKey, id.number))
  }

  /**
   * `search-issues <query>`: the arguments joined by single spaces. The
   * query is rejected only when that join is empty: no argument at all, or
   * a single empty one.
   */
  function SearchIssues(args: seq<string>): (r: Result<Request, Error>)
    ensures r.Failure? <==> args == [] || args == [""]
    ensures r.Failure? ==> r.error == Usage("search-issues")
    ensures r.Success? ==> r.value == SearchQuery(Join(args, " ")) && r.value.query != ""
  {
    JoinIsEmpty(args, " ");
    var query := Join(args, " ");
    if query == "" then Failure(Usage("search-issues")) else Success(SearchQuery(query))
  }

  /**
   * `add-comment <IDENTIFIER> <body...>`: the body is every argument after
   * the identifier, joined by single spaces; both must be non-empty.
   */
  function AddComment(args: seq<string>, lookups: Lookups): (r: Result<Request, Error>)
    ensures r == Failure(Usage("add-comment")) <==>
      |args| == 0 || args[0] == "" || args[1..] == [] || args[1..] == [""]
    ensures r.Success? ==>
      && r.value.CommentCreate?
      && r.value.body == Join(args[1..], " ") && r.value.body != ""
      && ResolveIssueId(args[0], lookups) == Success(r.value.issueId)
    ensures r.Failure? && r.error != Usage("add-comment") ==>
      ResolveIssueId(args[0], lookups) == Failure(r.error)
  {
    var rest := if |args| == 0 then [] else args[1..];
    JoinIsEmpty(rest, " ");
    var body := Join(rest, " ");
    match ArgAt(args, 0)
    case None => Failure(Usage("add-comment"))
    case Some(identifier) =>
      if body == "" then Failure(Usage("add-comment"))
      else
        match ResolveIssueId(identifier, lookups)
        case Failure(e) => Failure(e)
        case Success(issueId) => Success(CommentCreate(issueId, body))
  }

  /** ASCII lower case; every other character is left as it is. */
  function LowerChar(c: char): char {
    if 'A' <= c <= 'Z' then (c as int + 32) as char else c
  }

  function Lower(s: string): (r: string)
    ensures |r| == |s|
    ensures forall i :: 0 <= i < |s| ==> r[i] == LowerChar(s[i])
  {
    if |s| == 0 then [] else [LowerChar(s[0])] + Lower(s[1..])
  }

  /** Two names are the same state name when they agree after lower-casing. */
  predicate SameName(a: string, b: string) {
    Lower(a) == Lower(b)
  }

  /** Lower-casing twice changes nothing more. */
  lemma LowerIdempotent(s: string)
    ensures Lower(Lower(s)) == Lower(s)
  {
  }

  /** `states.find(...)`: the position of the first state whose name matches, ignoring case. */
  function FindState(states: seq<WorkflowState>, name: string): (r: Option<nat>)
    ensures r.None? <==> forall i :: 0 <= i < |states| ==> !SameName(states[i].name, name)
    ensures r.Some? ==>
      && r.value < |states| && SameName(states[r.value].name, name)
      && forall j :: 0 <= j < r.value ==> !SameName(states[j].name, name)
  {
    if |states| == 0 then None
    else if SameName(states[0].name, name) then Some(0)
    else
      match FindState(states[1..], name)
      case None => None
      case Some(i) => Some(i + 1)
  }

  /** The case of the requested name does not matter. */
  lemma FindStateIgnoresCase(states: seq<WorkflowState>, name: string)
    ensures FindState(states, Lower(name)) == FindState(states, name)
  {
    LowerIdempotent(name);
  }

  function StateNames(states: seq<WorkflowState>): (names: seq<string>)
    ensures |names| == |states|
    ensures forall i :: 0 <= i < |states| ==> names[i] == states[i].name
  {
    if |states| == 0 then [] else [states[0].name] + StateNames(states[1..])
  }

  /**
   * `update-status <IDENTIFIER> <STATE>`: move the issue to the first state
   * of its team whose name matches, ignoring case; when none does, the
   * error lists every state name in order.
   */
  function UpdateStatus(args: seq<string>, lookups: Lookups): (r: Result<Request, Error>)
    ensures ArgAt(args, 0).None? || ArgAt(args, 1).None? ==> r == Failure(Usage("update-status"))
    ensures ArgAt(args, 0).Some? && ArgAt(args, 1).Some? && !Identifier.MatchesPattern(args[0]) ==>
      r == Failure(InvalidIdentifier(args[0]))
    ensures ArgAt(args, 0).Some? && ArgAt(args, 1).Some? && Identifier.MatchesPattern(args[0]) && lookups.issue.None? ==>
      r == Failure(IssueNotFound(args[0]))
    ensures ArgAt(args, 0).Some? && ArgAt(args, 1).Some? && Identifier.MatchesPattern(args[0]) && lookups.issue.Some? ==>
      var states := lookups.issue.value.states;
      && (r.Success? <==> FindState(states, args[1]).Some?)
      && (FindState(states, args[1]).None? ==> r == Failure(StateNotFound(args[1], Join(StateNames(states), ", "))))
    ensures r.Success? ==>
      && lookups.issue.Some? && Identifier.MatchesPattern(args[0])
      && var issue := lookups.issue.value;
      && var k := FindState(issue.states, args[1]);
      && k.Some?
      && r.value == IssueUpdate(issue.id, map[StateId := Text(issue.states[k.value].id)])
    ensures r.Failure? && r.error.StateNotFound? ==>
      && lookups.issue.Some?
      && (forall i :: 0 <= i < |lookups.issue.value.states| ==> !SameName(lookups.issue.value.states[i].name, args[1]))
      && r.error == StateNotFound(args[1], Join(StateNames(lookups.issue.value.states), ", "))
  {
    match (ArgAt(args, 0), ArgAt(args, 1))
    case (Some(identifier), Some(stateName)) =>
      (match Identifier.Parse(identifier)
       case Failure(e) => Failure(e)
       case Success(_) =>
         match lookups.issue
         case None => Failure(IssueNotFound(identifier))
         case Some(issue) =>
           match FindState(issue.states, stateName)
           case None => Failure(StateNotFound(stateName, Join(StateNames(issue.states), ", ")))
           case Some(k) => Success(IssueUpdate(issue.id, map[StateId := Text(issue.states[k].id)])))
    case _ => Failure(Usage("update-status"))
  }
}
