/**
 * `create-issue` and `update-issue`: required-flag checks, name-to-id
 * lookups and the field-by-field assembly of the mutation's `input` record.
 */
module IssueInput {
  import opened Wrappers
  import opened Requests
  import opened Args
  import Issues

  /**
   * The flags `create-issue` and `update-issue` read, each as a condition
   * sees it: a value only when the flag is followed by a non-empty string.
   */
  datatype IssueFlags = IssueFlags(
    title: Option<string>,
    description: Option<string>,
    teamKey: Option<string>,
    priority: Option<string>,
    labelName: Option<string>,
    projectName: Option<string>,
    assigneeName: Option<string>,
    parent: Option<string>)

  function ReadFlags(args: seq<string>): IssueFlags {
    IssueFlags(
      Given(args, "--title"), Given(args, "--description"), Given(args, "--team"),
      Given(args, "--priority"), Given(args, "--label"), Given(args, "--project"),
      Given(args, "--assignee"), Given(args, "--parent"))
  }

  /** `input[key] = v` when there is a value to store, else `input` unchanged. */
  function Put(input: Input, key: Key, v: Option<Field>): (r: Input)
  {
    if v.Some? then input[key := v.value] else input
  }

  /** The id a lookup found, for a flag that has a value. */
  function Found(flag: Option<string>, answer: Option<string>): Option<Field> {
    if flag.Some? && answer.Some? then Some(Text(answer.value)) else None
  }

  function TextOf(v: Option<string>): Option<Field> {
    if v.Some? then Some(Text(v.value)) else None
  }

  function IntOfFlag(v: Option<string>): Option<Field> {
    if v.Some? then Some(IntOf(v.value)) else None
  }

  function LabelIdsOf(flag: Option<string>, answer: Option<string>): Option<Field> {
    if flag.Some? && answer.Some? then Some(Ids([answer.value])) else None
  }

  // ---------------------------------------------------------------- create

  /** The `input` record of a `create-issue` whose checks and lookups all succeeded. */
  function CreateInput(f: IssueFlags, lookups: Lookups, parentId: Option<string>): (input: Input)
    requires f.title.Some? && lookups.teamId.Some?
    ensures StateId !in input
    ensures Title in input && input[Title] == Text(f.title.value)
    ensures Description in input && input[Description] == Text(if f.description.Some? then f.description.value else "")
    ensures TeamId in input && input[TeamId] == Text(lookups.teamId.value)
    ensures Priority in input <==> f.priority.Some?
    ensures LabelIds in input <==> f.labelName.Some? && lookups.labelId.Some?
    ensures ProjectId in input <==> f.projectName.Some? && lookups.projectId.Some?
    ensures AssigneeId in input <==> f.assigneeName.Some? && lookups.userId.Some?
    ensures ParentId in input <==> parentId.Some?
    ensures Priority in input ==> input[Priority] == IntOf(f.priority.value)
    ensures LabelIds in input ==> input[LabelIds] == Ids([lookups.labelId.value])
    ensures ProjectId in input ==> input[ProjectId] == Text(lookups.projectId.value)
    ensures AssigneeId in input ==> input[AssigneeId] == Text(lookups.userId.value)
    ensures ParentId in input ==> input[ParentId] == Text(parentId.value)
  {
    var base := map[Title := Text(f.title.value), Description := Text(f.description.GetOr("")),
                    TeamId := Text(lookups.teamId.value)];
    var withPriority := Put(base, Priority, IntOfFlag(f.priority));
    var withLabel := Put(withPriority, LabelIds, LabelIdsOf(f.labelName, lookups.labelId));
    var withProject := Put(withLabel, ProjectId, Found(f.projectName, lookups.projectId));
    var withAssignee := Put(withProject, AssigneeId, Found(f.assigneeName, lookups.userId));
    Put(withAssignee, ParentId, TextOf(parentId))
  }

  /** What `create-issue` issues, or the first error it stops at. */
  function CreateOutcome(f: IssueFlags, lookups: Lookups): Result<Request, Error> {
    if f.title.None? || f.teamKey.None? then Failure(Usage("create-issue"))
    else if lookups.teamId.None? then Failure(TeamNotFound(f.teamKey.value))
    else if f.projectName.Some? && lookups.projectId.None? then Failure(ProjectNotFound(f.projectName.value))
    else if f.assigneeName.Some? && lookups.userId.None? then Failure(UserNotFound(f.assigneeName.value))
    else if f.parent.None? then Success(IssueCreate(CreateInput(f, lookups, None)))
    else
      match Issues.ResolveIssueId(f.parent.value, lookups)
      case Failure(e) => Failure(e)
      case Success(parentId) => Success(IssueCreate(CreateInput(f, lookups, Some(parentId))))
  }

  /** `createIssue`: check the required flags, resolve names, then fill `input` one field at a time. */
  method CreateIssue(args: seq<string>, lookups: Lookups) returns (r: Result<Request, Error>)
    ensures r == CreateOutcome(ReadFlags(args), lookups)
  {
    var title := Given(args, "--title");
    var description := Given(args, "--description").GetOr("");
    var teamKey := Given(args, "--team");
    var priority := Given(args, "--priority");
    var labelName := Given(args, "--label");
    var projectName := Given(args, "--project");
    var assigneeName := Given(args, "--assignee");
    var parentIdentifier := Given(args, "--parent");
    ghost var f := ReadFlags(args);

    if title.None? || teamKey.None? {
      return Failure(Usage("create-issue"));
    }
    if lookups.teamId.None? {
      return Failure(TeamNotFound(teamKey.value));
    }

    var input: Input := map[Title := Text(title.value), Description := Text(description),
                            TeamId := Text(lookups.teamId.value)];
    if priority.Some? {
      input := input[Priority := IntOf(priority.value)];
    }
    if labelName.Some? && lookups.labelId.Some? {
      input := input[LabelIds := Ids([lookups.labelId.value])];
    }
    if projectName.Some? {
      if lookups.projectId.None? {
        return Failure(ProjectNotFound(projectName.value));
      }
      input := input[ProjectId := Text(lookups.projectId.value)];
    }
    if assigneeName.Some? {
      if lookups.userId.None? {
        return Failure(UserNotFound(assigneeName.value));
      }
      input := input[AssigneeId := Text(lookups.userId.value)];
    }
    assert input == Put(CreateInput(f, lookups, None), ParentId, None);
    if parentIdentifier.Some? {
      var parentId := Issues.ResolveIssueId(parentIdentifier.value, lookups);
      if parentId.Failure? {
        return Failure(parentId.error);
      }
      input := input[ParentId := Text(parentId.value)];
    }
    r := Success(IssueCreate(input));
  }

  /** `create-issue` goes ahead only with a non-empty title and team key and a team the server knows. */
  lemma CreateNeedsTitleAndTeam(f: IssueFlags, lookups: Lookups)
    ensures f.title.None? || f.teamKey.None? ==> CreateOutcome(f, lookups) == Failure(Usage("create-issue"))
    ensures f.title.Some? && f.teamKey.Some? && lookups.teamId.None? ==>
      CreateOutcome(f, lookups) == Failure(TeamNotFound(f.teamKey.value))
    ensures CreateOutcome(f, lookups).Success? ==>
      f.title.Some? && f.teamKey.Some? && lookups.teamId.Some?
  {
  }

  /**
   * On success `input` holds title, description (empty by default) and team
   * id, plus exactly the optional keys whose flag has a value and, for the
   * label, whose lookup found something.
   */
  lemma CreateInputKeys(f: IssueFlags, lookups: Lookups)
    requires CreateOutcome(f, lookups).Success?
    ensures CreateOutcome(f, lookups).value.IssueCreate?
    ensures var input := CreateOutcome(f, lookups).value.input;
      && StateId !in input
      && input[Title] == Text(f.title.value)
      && input[Description] == Text(if f.description.Some? then f.description.value else "")
      && input[TeamId] == Text(lookups.teamId.value)
      && (Priority in input <==> f.priority.Some?)
      && (LabelIds in input <==> f.labelName.Some? && lookups.labelId.Some?)
      && (ProjectId in input <==> f.projectName.Some?)
      && (AssigneeId in input <==> f.assigneeName.Some?)
      && (ParentId in input <==> f.parent.Some?)
      && (Priority in input ==> input[Priority] == IntOf(f.priority.value))
      && (LabelIds in input ==> input[LabelIds] == Ids([lookups.labelId.value]))
      && (ProjectId in input ==> input[ProjectId] == Text(lookups.projectId.value))
      && (AssigneeId in input ==> input[AssigneeId] == Text(lookups.userId.value))
      && (ParentId in input ==> Issues.ResolveIssueId(f.parent.value, lookups) == Success(input[ParentId].text))
  {
  }

  /** Storing under two different keys gives the same record in either order. */
  lemma PutCommutes(input: Input, k1: Key, v1: Option<Field>, k2: Key, v2: Option<Field>)
    requires k1 != k2
    ensures Put(Put(input, k1, v1), k2, v2) == Put(Put(input, k2, v2), k1, v1)
  {
  }

  /**
   * A label the server does not know is dropped without error: the command
   * goes ahead exactly as with a label that was found, only without the
   * `labelIds` key.
   */
  lemma UnknownLabelIgnored(f: IssueFlags, lookups: Lookups, labelId: string)
    requires f.labelName.Some?
    ensures var missed := CreateOutcome(f, lookups.(labelId := None));
      var found := CreateOutcome(f, lookups.(labelId := Some(labelId)));
      && (missed.Success? <==> found.Success?)
      && (missed.Failure? ==> missed == found)
      && (missed.Success? ==>
            && LabelIds !in missed.value.input
            && found.value.input == missed.value.input[LabelIds := Ids([labelId])])
  {
    var missed, found := lookups.(labelId := None), lookups.(labelId := Some(labelId));
    if CreateOutcome(f, missed).Success? {
      var parentId := if f.parent.Some? then Some(Issues.ResolveIssueId(f.parent.value, lookups).value) else None;
      var base := map[Title := Text(f.title.value), Description := Text(f.description.GetOr("")),
                      TeamId := Text(lookups.teamId.value)];
      var withPriority := Put(base, Priority, IntOfFlag(f.priority));
      var labelIds := Some(Ids([labelId]));
      var project := Found(f.projectName, lookups.projectId);
      var assignee := Found(f.assigneeName, lookups.userId);
      var parent := TextOf(parentId);
      var rest := Put(Put(Put(withPriority, ProjectId, project), AssigneeId, assignee), ParentId, parent);
      assert CreateInput(f, missed, parentId) == rest;
      PutCommutes(withPriority, LabelIds, labelIds, ProjectId, project);
      PutCommutes(Put(withPriority, ProjectId, project), LabelIds, labelIds, AssigneeId, assignee);
      PutCommutes(Put(Put(withPriority, ProjectId, project), AssigneeId, assignee), LabelIds, labelIds, ParentId, parent);
      assert CreateInput(f, found, parentId) == Put(rest, LabelIds, labelIds);
    }
  }

  /**
   * `create-issue` goes ahead exactly when title and team are given, the
   * team, project and assignee are found, and a given parent resolves; a
   * parent that does not resolve stops it with that resolution's error.
   */
  lemma CreateSucceedsIff(f: IssueFlags, lookups: Lookups)
    ensures CreateOutcome(f, lookups).Success? <==>
      && f.title.Some? && f.teamKey.Some? && lookups.teamId.Some?
      && (f.projectName.None? || lookups.projectId.Some?)
      && (f.assigneeName.None? || lookups.userId.Some?)
      && (f.parent.None? || Issues.ResolveIssueId(f.parent.value, lookups).Success?)
    ensures (&& f.title.Some? && f.teamKey.Some? && lookups.teamId.Some?
             && (f.projectName.None? || lookups.projectId.Some?)
             && (f.assigneeName.None? || lookups.userId.Some?)
             && f.parent.Some? && Issues.ResolveIssueId(f.parent.value, lookups).Failure?) ==>
      CreateOutcome(f, lookups) == Failure(Issues.ResolveIssueId(f.parent.value, lookups).error)
  {
  }

  /**
   * An unknown project or assignee, unlike a label, stops `create-issue`;
   * once title and team pass, the project is checked before the assignee.
   */
  lemma UnknownProjectOrUserFails(f: IssueFlags, lookups: Lookups)
    ensures f.projectName.Some? && lookups.projectId.None? ==> CreateOutcome(f, lookups).Failure?
    ensures f.assigneeName.Some? && lookups.userId.None? ==> CreateOutcome(f, lookups).Failure?
    ensures (&& f.title.Some? && f.teamKey.Some? && lookups.teamId.Some?
             && f.projectName.Some? && lookups.projectId.None?) ==>
      CreateOutcome(f, lookups) == Failure(ProjectNotFound(f.projectName.value))
    ensures (&& f.title.Some? && f.teamKey.Some? && lookups.teamId.Some?
             && (f.projectName.None? || lookups.projectId.Some?)
             && f.assigneeName.Some? && lookups.userId.None?) ==>
      CreateOutcome(f, lookups) == Failure(UserNotFound(f.assigneeName.value))
  {
  }

  // ---------------------------------------------------------------- update

  /** The `input` record of `update-issue`: one key per flag with a value and, for names, a found id. */
  function UpdateInput(f: IssueFlags, lookups: Lookups): (input: Input)
    ensures TeamId !in input && ParentId !in input && StateId !in input
    ensures Priority in input <==> f.priority.Some?
    ensures Title in input <==> f.title.Some?
    ensures Description in input <==> f.description.Some?
    ensures AssigneeId in input <==> f.assigneeName.Some? && lookups.userId.Some?
    ensures LabelIds in input <==> f.labelName.Some? && lookups.labelId.Some?
    ensures ProjectId in input <==> f.projectName.Some? && lookups.projectId.Some?
    ensures Priority in input ==> input[Priority] == IntOf(f.priority.value)
    ensures Title in input ==> input[Title] == Text(f.title.value)
    ensures Description in input ==> input[Description] == Text(f.description.value)
    ensures AssigneeId in input ==> input[AssigneeId] == Text(lookups.userId.value)
    ensures LabelIds in input ==> input[LabelIds] == Ids([lookups.labelId.value])
    ensures ProjectId in input ==> input[ProjectId] == Text(lookups.projectId.value)
  {
    var withPriority := Put(map[], Priority, IntOfFlag(f.priority));
    var withTitle := Put(withPriority, Title, TextOf(f.title));
    var withDescription := Put(withTitle, Description, TextOf(f.description));
    var withAssignee := Put(withDescription, AssigneeId, Found(f.assigneeName, lookups.userId));
    var withLabel := Put(withAssignee, LabelIds, LabelIdsOf(f.labelName, lookups.labelId));
    Put(withLabel, ProjectId, Found(f.projectName, lookups.projectId))
  }

  /** The `input` of `update-issue`, or the first lookup that failed. */
  function UpdateFields(f: IssueFlags, lookups: Lookups): Result<Input, Error> {
    if f.assigneeName.Some? && lookups.userId.None? then Failure(UserNotFound(f.assigneeName.value))
    else if f.projectName.Some? && lookups.projectId.None? then Failure(ProjectNotFound(f.projectName.value))
    else Success(UpdateInput(f, lookups))
  }

  /** What `update-issue` issues, or the first error it stops at. */
  function UpdateOutcome(args: seq<string>, lookups: Lookups): Result<Request, Error> {
    match ArgAt(args, 0)
    case None => Failure(Usage("update-issue"))
    case Some(identifier) =>
      match Issues.ResolveIssueId(identifier, lookups)
      case Failure(e) => Failure(e)
      case Success(issueId) =>
        match UpdateFields(ReadFlags(args), lookups)
        case Failure(e) => Failure(e)
        case Success(input) =>
          if |input| == 0 then Failure(NoFieldsToUpdate) else Success(IssueUpdate(issueId, input))
  }

  /** `updateIssue`: resolve the issue, assemble `input`, and refuse an empty update. */
  method UpdateIssue(args: seq<string>, lookups: Lookups) returns (r: Result<Request, Error>)
    ensures r == UpdateOutcome(args, lookups)
  {
    var identifier := ArgAt(args, 0);
    if identifier.None? {
      return Failure(Usage("update-issue"));
    }
    var issueId := Issues.ResolveIssueId(identifier.value, lookups);
    if issueId.Failure? {
      return Failure(issueId.error);
    }
    var fields := AssembleUpdate(args, lookups);
    if fields.Failure? {
      return Failure(fields.error);
    }
    var input := fields.value;
    if |input| == 0 {
      return Failure(NoFieldsToUpdate);
    }
    r := Success(IssueUpdate(issueId.value, input));
  }

  /** The field-by-field part of `updateIssue`: each flag with a value adds its key to `input`. */
  method AssembleUpdate(args: seq<string>, lookups: Lookups) returns (r: Result<Input, Error>)
    ensures r == UpdateFields(ReadFlags(args), lookups)
  {
    ghost var f := ReadFlags(args);
    var input: Input := map[];

    var priority := Given(args, "--priority");
    if priority.Some? { input := input[Priority := IntOf(priority.value)]; }
    ghost var withPriority := input;
    assert withPriority == Put(map[], Priority, IntOfFlag(f.priority));

    var title := Given(args, "--title");
    if title.Some? { input := input[Title := Text(title.value)]; }
    ghost var withTitle := input;
    assert withTitle == Put(withPriority, Title, TextOf(f.title));

    var description := Given(args, "--description");
    if description.Some? { input := input[Description := Text(description.value)]; }
    ghost var withDescription := input;
    assert withDescription == Put(withTitle, Description, TextOf(f.description));

    var assigneeName := Given(args, "--assignee");
    if assigneeName.Some? {
      if lookups.userId.None? {
        return Failure(UserNotFound(assigneeName.value));
      }
      input := input[AssigneeId := Text(lookups.userId.value)];
    }
    ghost var withAssignee := input;
    assert withAssignee == Put(withDescription, AssigneeId, Found(f.assigneeName, lookups.userId));

    var labelName := Given(args, "--label");
    if labelName.Some? && lookups.labelId.Some? {
      input := input[LabelIds := Ids([lookups.labelId.value])];
    }
    ghost var withLabel := input;
    assert withLabel == Put(withAssignee, LabelIds, LabelIdsOf(f.labelName, lookups.labelId));

    var projectName := Given(args, "--project");
    if projectName.Some? {
      if lookups.projectId.None? {
        return Failure(ProjectNotFound(projectName.value));
      }
      input := input[ProjectId := Text(lookups.projectId.value)];
    }
    assert input == Put(withLabel, ProjectId, Found(f.projectName, lookups.projectId));
    r := Success(input);
  }

  /**
   * The assembled `input` is empty, so that the update is refused, exactly
   * when no lookup fails and no field flag has a value, except perhaps a
   * label nobody found.
   */
  lemma EmptyUpdateFields(f: IssueFlags, lookups: Lookups)
    ensures UpdateFields(f, lookups) == Success(map[]) <==>
      && f.priority.None? && f.title.None? && f.description.None?
      && f.assigneeName.None? && f.projectName.None?
      && (f.labelName.None? || lookups.labelId.None?)
  {
    if UpdateFields(f, lookups) == Success(map[]) {
      var input := UpdateInput(f, lookups);
      assert Priority !in input && Title !in input && Description !in input;
    }
  }

  /** An update that goes ahead never carries an empty `input`; one that would is refused. */
  lemma EmptyUpdateRefused(args: seq<string>, lookups: Lookups)
    ensures UpdateOutcome(args, lookups).Success? ==> |UpdateOutcome(args, lookups).value.input| > 0
    ensures UpdateOutcome(args, lookups) == Failure(NoFieldsToUpdate) <==>
      && ArgAt(args, 0).Some? && Issues.ResolveIssueId(args[0], lookups).Success?
      && UpdateFields(ReadFlags(args), lookups) == Success(map[])
  {
  }

  /**
   * Once the issue resolves, `update-issue` stops at an unknown assignee,
   * then at an unknown project; otherwise it sends the assembled `input`
   * for the resolved id exactly when that record is not empty.
   */
  lemma UpdateOutcomeCases(args: seq<string>, lookups: Lookups)
    requires ArgAt(args, 0).Some? && Issues.ResolveIssueId(args[0], lookups).Success?
    ensures var f := ReadFlags(args);
      var r := UpdateOutcome(args, lookups);
      && (f.assigneeName.Some? && lookups.userId.None? ==> r == Failure(UserNotFound(f.assigneeName.value)))
      && ((f.assigneeName.None? || lookups.userId.Some?) && f.projectName.Some? && lookups.projectId.None? ==>
            r == Failure(ProjectNotFound(f.projectName.value)))
      && ((f.assigneeName.None? || lookups.userId.Some?) && (f.projectName.None? || lookups.projectId.Some?) ==>
            (r.Success? <==> |UpdateInput(f, lookups)| > 0))
      && (r.Success? ==> r.value == IssueUpdate(Issues.ResolveIssueId(args[0], lookups).value, UpdateInput(f, lookups)))
  {
  }


  /**
   * `update-issue` needs an identifier, and resolves it before any field
   * lookup: a missing one is a usage error, and one that does not resolve
   * stops the command with that resolution's error.
   */
  lemma UpdateNeedsIdentifier(args: seq<string>, lookups: Lookups)
    ensures ArgAt(args, 0).None? ==> UpdateOutcome(args, lookups) == Failure(Usage("update-issue"))
    ensures ArgAt(args, 0).Some? && Issues.ResolveIssueId(args[0], lookups).Failure? ==>
      UpdateOutcome(args, lookups) == Failure(Issues.ResolveIssueId(args[0], lookups).error)
    ensures UpdateOutcome(args, lookups).Success? ==>
      ArgAt(args, 0).Some? && Issues.ResolveIssueId(args[0], lookups).Success?
  {
  }

}
