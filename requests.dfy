/**
 * What a command hands to the remote API, what it stops with, and what the
 * remote lookups it performs on the way return.
 */
module Requests {
  import opened Wrappers

  /** Every path of the command line client that ends in `process.exit(1)`. */
  datatype Error =
    | UnknownCommand                             // router: missing or unregistered command
    | Usage(command: string)                     // a required argument or flag is missing
    | InvalidIdentifier(identifier: string)      // not of the form TEAM-123
    | IssueNotFound(identifier: string)
    | TeamNotFound(teamKey: string)
    | ProjectNotFound(name: string)
    | UserNotFound(name: string)
    | StateNotFound(stateName: string, available: string)
    | NoFieldsToUpdate

  /** A value stored in a mutation's `input` record. */
  datatype Field =
    | Text(text: string)
    | IntOf(raw: string)         // parseInt(raw), left uninterpreted
    | Ids(ids: seq<string>)

  /** The keys a mutation's `input` record may carry. */
  datatype Key = Title | Description | TeamId | Priority | LabelIds | ProjectId | AssigneeId | ParentId | StateId

  type Input = map<Key, Field>

  /** The one query or mutation a command finally issues. */
  datatype Request =
    | TeamsQuery
    | ProjectsQuery(filterClause: string)
    | StatesQuery(team: Option<string>)
    | IssuesQuery(limit: string, filterClause: string)
    | IssueQuery(teamKey: string, number: nat)
    | SearchQuery(query: string)
    | IssueCreate(input: Input)
    | IssueUpdate(issueId: string, input: Input)
    | CommentCreate(issueId: string, body: string)

  datatype WorkflowState = WorkflowState(id: string, name: string)

  /** The first issue node a `TEAM-number` query returns, with its team's workflow states. */
  datatype IssueNode = IssueNode(id: string, states: seq<WorkflowState>)

  /**
   * The answers of the remote lookups, each None when the server returned
   * no node. A team, label, project or user answer is the id of the first
   * node; the issue answer is the first issue node, its id together with
   * its team's workflow states.
   */
  datatype Lookups = Lookups(
    teamId: Option<string>,
    labelId: Option<string>,
    projectId: Option<string>,
    userId: Option<string>,
    issue: Option<IssueNode>)
}
