/**
 * The command router: the first argument names one of ten commands, the
 * rest are that command's arguments.
 */
module Router {
  import opened Wrappers
  import opened Requests
  import Listing
  import Issues
  import IssueInput

  datatype Command =
    | ListTeams | ListProjects | ListStates | ListIssues | GetIssue
    | SearchIssues | CreateIssue | UpdateIssue | UpdateStatus | AddComment

  /** The registered command names, in the order of the handler table. */
  const CommandNames: seq<string> := [
    "list-teams", "list-projects", "list-states", "list-issues", "get-issue",
    "search-issues", "create-issue", "update-issue", "update-status", "add-comment"]

  function Name(c: Command): string {
    match c
    case ListTeams => "list-teams"
    case ListProjects => "list-projects"
    case ListStates => "list-states"
    case ListIssues => "list-issues"
    case GetIssue => "get-issue"
    case SearchIssues => "search-issues"
    case CreateIssue => "create-issue"
    case UpdateIssue => "update-issue"
    case UpdateStatus => "update-status"
    case AddComment => "add-comment"
  }

  /** The handler table: the command registered under `name`, if any. */
  function Handler(name: string): (r: Option<Command>)
    ensures r.Some? ==> Name(r.value) == name
    ensures r.None? <==> name !in CommandNames
  {
    if name == "list-teams" then Some(ListTeams)
    else if name == "list-projects" then Some(ListProjects)
    else if name == "list-states" then Some(ListStates)
    else if name == "list-issues" then Some(ListIssues)
    else if name == "get-issue" then Some(GetIssue)
    else if name == "search-issues" then Some(SearchIssues)
    else if name == "create-issue" then Some(CreateIssue)
    else if name == "update-issue" then Some(UpdateIssue)
    else if name == "update-status" then Some(UpdateStatus)
    else if name == "add-comment" then Some(AddComment)
    else None
  }

  /** Every command is found under its own name. */
  lemma HandlerFindsEveryCommand(c: Command)
    ensures Handler(Name(c)) == Some(c)
  {
  }

  /**
   * Accept a registered command name and hand over the remaining arguments;
   * a missing command or any other name is rejected.
   */
  function Route(argv: seq<string>): (r: Result<(Command, seq<string>), Error>)
    ensures r.Success? <==> |argv| > 0 && argv[0] in CommandNames
    ensures r.Success? ==> Name(r.value.0) == argv[0] && r.value.1 == argv[1..]
    ensures r.Failure? ==> r.error == UnknownCommand
  {
    if |argv| == 0 || argv[0] == "" then Failure(UnknownCommand)
    else
      match Handler(argv[0])
      case None => Failure(UnknownCommand)
      case Some(c) => Success((c, argv[1..]))
  }

  /**
   * Property names every plain object inherits from Object.prototype, so
   * that `commands[name]` is truthy for them although no command has them.
   */
  const InheritedNames: set<string> := {
    "constructor", "hasOwnProperty", "isPrototypeOf", "propertyIsEnumerable",
    "toLocaleString", "toString", "valueOf", "__proto__",
    "__defineGetter__", "__defineSetter__", "__lookupGetter__", "__lookupSetter__"}

  /** What `commands[name]` yields on the handler object: a handler, an inherited member, or nothing. */
  datatype Dispatch = Registered(command: Command) | Inherited(name: string)

  /**
   * The router's guard as written, `!command || !commands[command]`, on a
   * plain object: inherited member names pass it as well.
   */
  function RouteAsWritten(argv: seq<string>): (r: Result<(Dispatch, seq<string>), Error>)
    ensures r.Success? <==> |argv| > 0 && (argv[0] in CommandNames || argv[0] in InheritedNames)
  {
    if |argv| == 0 || argv[0] == "" then Failure(UnknownCommand)
    else
      match Handler(argv[0])
      case Some(c) => Success((Registered(c), argv[1..]))
      case None =>
        if argv[0] in InheritedNames then Success((Inherited(argv[0]), argv[1..]))
        else Failure(UnknownCommand)
  }

  /** `toString` is no command, yet the guard as written lets it through; `Route` rejects it. */
  lemma InheritedNameSlipsThrough()
    ensures "toString" !in CommandNames
    ensures RouteAsWritten(["toString"]) == Success((Inherited("toString"), []))
    ensures Route(["toString"]) == Failure(UnknownCommand)
  {
    assert Handler("toString") == None;
    assert ["toString"][1..] == [];
    assert "toString" in InheritedNames;
  }

  /** On every registered name and every rejected one, the two routers agree. */
  lemma RoutersAgreeOffInheritedNames(argv: seq<string>)
    requires |argv| == 0 || argv[0] !in InheritedNames
    ensures Route(argv).Success? <==> RouteAsWritten(argv).Success?
    ensures Route(argv).Success? ==>
      RouteAsWritten(argv) == Success((Registered(Route(argv).value.0), argv[1..]))
  {
  }

  /**
   * The whole client: route the command, then translate its arguments and
   * the lookup answers into the one request it issues, or the error it
   * stops with.
   */
  method Run(argv: seq<string>, lookups: Lookups) returns (r: Result<Request, Error>)
    ensures Route(argv).Failure? ==> r == Failure(UnknownCommand)
    ensures |argv| > 0 && argv[0] == "list-teams" ==> r == Listing.ListTeams(argv[1..])
    ensures |argv| > 0 && argv[0] == "list-projects" ==> r == Listing.ListProjects(argv[1..])
    ensures |argv| > 0 && argv[0] == "list-states" ==> r == Listing.ListStates(argv[1..], lookups)
    ensures |argv| > 0 && argv[0] == "list-issues" ==>
      var args := argv[1..];
      r == Success(IssuesQuery(Listing.IssuesLimit(args), Listing.FilterClause(Listing.Fragments(Listing.IssueFilters(args)))))
    ensures |argv| > 0 && argv[0] == "get-issue" ==> r == Issues.GetIssue(argv[1..], lookups)
    ensures |argv| > 0 && argv[0] == "search-issues" ==> r == Issues.SearchIssues(argv[1..])
    ensures |argv| > 0 && argv[0] == "create-issue" ==>
      r == IssueInput.CreateOutcome(IssueInput.ReadFlags(argv[1..]), lookups)
    ensures |argv| > 0 && argv[0] == "update-issue" ==> r == IssueInput.UpdateOutcome(argv[1..], lookups)
    ensures |argv| > 0 && argv[0] == "update-status" ==> r == Issues.UpdateStatus(argv[1..], lookups)
    ensures |argv| > 0 && argv[0] == "add-comment" ==> r == Issues.AddComment(argv[1..], lookups)
  {
    var route := Route(argv);
    if route.Failure? {
      return Failure(UnknownCommand);
    }
    var (command, args) := route.value;
    match command
    case ListTeams => r := Listing.ListTeams(args);
    case ListProjects => r := Listing.ListProjects(args);
    case ListStates => r := Listing.ListStates(args, lookups);
    case ListIssues => r := Listing.ListIssues(args);
    case GetIssue => r := Issues.GetIssue(args, lookups);
    case SearchIssues => r := Issues.SearchIssues(args);
    case CreateIssue => r := IssueInput.CreateIssue(args, lookups);
    case UpdateIssue => r := IssueInput.UpdateIssue(args, lookups);
    case UpdateStatus => r := Issues.UpdateStatus(args, lookups);
    case AddComment => r := Issues.AddComment(args, lookups);
  }
}
