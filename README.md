# Linear command-line client, modelled in Dafny

`scripts/linear-api.ts` is a small command-line client for the Linear issue
tracker. It takes a command name and its arguments, looks a few names up
on the server (teams, labels, projects, users, issues), then sends one
GraphQL query or mutation and prints the answer. It stops with a message
and exit status 1 on a missing argument or a malformed identifier. It also
stops when a team, project, user, issue or workflow state is not found. A
label that is not found is silently left out instead.

This project models the client's decision logic, without the network:

- how flags are read (`getFlag` and JavaScript truthiness);
- how `TEAM-123` identifiers are parsed;
- the filter clauses of `list-projects` and `list-issues`;
- the checks and the field-by-field assembly of the `input` record of
  `create-issue` and `update-issue`;
- the case-insensitive state match of `update-status`;
- the argument joins of `search-issues` and `add-comment`;
- the command router.

Every server lookup becomes a field of a `Lookups` value, `None` when the
server found nothing. For a team, label, project or user the field holds the
id found. For an issue it holds the issue's id together with its team's
workflow states, which `update-status` searches. Every `process.exit(1)` becomes a `Failure` carrying an `Error`. A
command's outcome is the `Request` it would send.

Modules, one per file:

- `Wrappers` (`wrappers.dfy`): `Option` and `Result`.
- `Requests` (`requests.dfy`): errors, the `input` record, requests and lookups.
- `Args` (`args.dfy`): flag reading and joining.
- `Identifier` (`identifier.dfy`): identifier parsing and its inverse.
- `Listing` (`listing.dfy`): `list-teams`, `list-projects`, `list-states`
  and `list-issues`.
- `Issues` (`issues.dfy`): `resolveIssueId`, `get-issue`, `search-issues`,
  `update-status` and `add-comment`.
- `IssueInput` (`issue_input.dfy`): `create-issue` and `update-issue`.
- `Router` (`router.dfy`): the command table and dispatch.

`listIssues`, `createIssue` and `updateIssue` build their results step by
step. They are methods, each proved equal to a specification function whose
properties are proved as lemmas.

## Model

| member | source | states |
|---|---|---|
| Args.IndexOf | scripts/linear-api.ts:49 | `indexOf`: it returns nothing iff the value does not occur; otherwise the index of its first occurrence |
| Args.GetFlag | scripts/linear-api.ts:48-51 | The flag is absent iff it does not occur. Otherwise the result is the argument after its first occurrence, or "no value" when that occurrence is the last argument |
| Args.FirstOccurrenceWins | scripts/linear-api.ts:48-51 | A repeated flag takes the value after its first occurrence; later ones are ignored |
| Args.TrailingFlagHasNoValue | scripts/linear-api.ts:50 | A flag given as the last argument has no value (`args[idx + 1]` is undefined) |
| Args.JoinLength | scripts/linear-api.ts:222 | The length of a join is the sum of the parts' lengths plus one separator between each pair |
| Args.JoinIsEmpty | scripts/linear-api.ts:222-223 | A join with a non-empty separator is empty iff there are no parts or one empty part |
| Identifier.LetterRun | scripts/linear-api.ts:54 | The greedy `[A-Z]+` prefix: all upper case, and it stops at the first other character |
| Identifier.Parse | scripts/linear-api.ts:53-62 | It succeeds iff the string is upper-case letters, a dash and digits. On success the team key is the letter part and the number is the decimal value of the digits. Otherwise the error is the invalid-identifier error for that string |
| Identifier.SplitIsUnique | scripts/linear-api.ts:54 | Only one split point fits the pattern: the end of the run of letters |
| Identifier.NatToDecimal | scripts/linear-api.ts:61 | Writing a number in decimal gives a non-empty string of digits |
| Identifier.DecimalRoundTrip | scripts/linear-api.ts:61 | Reading the decimal form of n gives n back |
| Identifier.LetterRunOfKey | scripts/linear-api.ts:54 | Followed by a non-letter, the letter run of a key is the whole key |
| Identifier.ParseSplit | scripts/linear-api.ts:53-62 | A key, a dash and digits parse to that key and the digits' value |
| Identifier.ParseFormat | scripts/linear-api.ts:53-62 | Round trip: formatting a valid identifier as `KEY-number` and parsing it gives the identifier back |
| Identifier.LeadingZerosNameTheSameIssue | scripts/linear-api.ts:61 | `BLU-042` and `BLU-42` parse to the same identifier, so parsing is not injective |
| Identifier.RejectedExamples | scripts/linear-api.ts:54-60 | Lower case, a missing dash, a second dash, missing letters or digits, and surrounding spaces are all rejected |
| Issues.ResolveIssueId | scripts/linear-api.ts:64-81 | A malformed identifier fails before any lookup. A well-formed one yields the id of the issue found, or the issue-not-found error |
| Issues.GetIssue | scripts/linear-api.ts:184-219 | Usage error without a first argument. A malformed identifier gives the invalid-identifier error. A well-formed one gives the not-found error when no issue is found, and succeeds when one is. On success the query carries the parsed team key and number |
| Issues.SearchIssues | scripts/linear-api.ts:221-244 | It fails iff the arguments are empty or one empty string, with the usage error. Otherwise it searches for the arguments joined by spaces, which is non-empty |
| Issues.AddComment | scripts/linear-api.ts:495-517 | Usage error iff the identifier is missing or empty, or the body join is empty. On success the comment's body is the rest joined by spaces and its issue is the resolved id. Other failures are those of resolving the identifier |
| Issues.Lower | scripts/linear-api.ts:385 | Lower-casing keeps the length and maps each character |
| Issues.LowerIdempotent | scripts/linear-api.ts:385 | Lower-casing twice is lower-casing once |
| Issues.FindState | scripts/linear-api.ts:384-386 | `find`: nothing iff no state's name matches ignoring case. Otherwise the first matching position |
| Issues.FindStateIgnoresCase | scripts/linear-api.ts:384-386 | Looking up a lower-cased name gives the same state as the name as typed |
| Issues.StateNames | scripts/linear-api.ts:388 | The list of names has one entry per state, in order |
| Issues.UpdateStatus | scripts/linear-api.ts:347-406 | Usage error when either argument is missing. Then a malformed identifier gives the invalid-identifier error, and a missing issue the not-found error. For a found issue, it succeeds iff some state matches the name ignoring case. On success the update sets only `stateId`, to the first matching state. With no match, the state-not-found error lists every name joined by ", " |
| Listing.ListTeams | scripts/linear-api.ts:85-90 | `list-teams` ignores its arguments and always issues the teams query |
| Listing.ProjectsFilterClause | scripts/linear-api.ts:93-97 | The clause is empty iff `--team` has no value. Otherwise it is the accessible-teams filter on that key |
| Listing.ListProjects | scripts/linear-api.ts:92-112 | Always the projects query with the clause of `ProjectsFilterClause`, which is empty iff `--team` has no value |
| Listing.ListStates | scripts/linear-api.ts:114-146 | Without a team value: every workflow state. With one: that team's states if the team is found, else the team-not-found error |
| Listing.Fragments | scripts/linear-api.ts:156-162 | One fragment per given filter, in order, each the exact text its flag produces |
| Listing.GivenFiltersMembers | scripts/linear-api.ts:156-162 | A filter is present with value v iff its flag has the value v |
| Listing.GivenFiltersOrdered | scripts/linear-api.ts:155-162 | The filters keep the order in which they are pushed |
| Listing.ListIssues | scripts/linear-api.ts:148-182 | The pushes build exactly the specified clause: one fragment per filter flag with a value, in order. The limit is `IssuesLimit`, whose contract gives the default "25" |
| Listing.IssuesLimit | scripts/linear-api.ts:153 | The limit is the `--limit` value when that is non-empty, otherwise "25"; it is never empty |
| Listing.FragmentsPush | scripts/linear-api.ts:156-162 | Pushing a filter appends its fragment |
| Listing.IssueFiltersUnfold | scripts/linear-api.ts:156-162 | The filters are the team, status, assignee and label pieces, in that order |
| Listing.IssueClauseEmpty | scripts/linear-api.ts:164-165 | The clause is empty iff none of the four filter flags has a value |
| Listing.IssueFiltersShape | scripts/linear-api.ts:155-165 | Each flag with a value contributes exactly its own fragment, in the order team, status, assignee, label |
| IssueInput.CreateInput | scripts/linear-api.ts:277-332 | `input` always holds the title, the description (default "") and the team id found, and never a state. Priority, label, project, assignee and parent are present iff given (and, for names, found). Each stores its value: the priority text, `[label id]`, the project, user and parent ids |
| IssueInput.CreateIssue | scripts/linear-api.ts:246-345 | The method's checks, lookups and step-by-step assignments produce exactly `CreateOutcome`. Its properties are proved by `CreateNeedsTitleAndTeam`, `CreateSucceedsIff`, `CreateInputKeys` (success sends `issueCreate`), `UnknownLabelIgnored` and `UnknownProjectOrUserFails` |
| IssueInput.CreateNeedsTitleAndTeam | scripts/linear-api.ts:256-275 | Usage error without a title or team value. Team-not-found when the team is unknown. Success implies all three are present |
| IssueInput.CreateSucceedsIff | scripts/linear-api.ts:256-332 | Create succeeds iff title and team are given, the team is found, a given project and assignee are found, and a given parent resolves. When only the parent fails to resolve, the outcome is that resolution's own error |
| IssueInput.CreateInputKeys | scripts/linear-api.ts:277-342 | A successful create sends the `issueCreate` mutation. Its `input` carries the fixed keys with their values. Project, assignee and parent are present exactly when their flags have values. Each optional key stores the id found; the parent is the id its identifier resolves to |
| IssueInput.PutCommutes | scripts/linear-api.ts:283-331 | Assignments to different keys of `input` commute |
| IssueInput.UnknownLabelIgnored | scripts/linear-api.ts:285-296 | An unknown label is dropped silently: the outcome is that of a found label without `labelIds` |
| IssueInput.UnknownProjectOrUserFails | scripts/linear-api.ts:298-328 | An unknown project or assignee stops the command. Once title and team pass, an unknown project gives the project-not-found error; otherwise an unknown assignee gives the user-not-found error |
| IssueInput.UpdateInput | scripts/linear-api.ts:418-475 | The update `input` has a key iff its flag has a value (and, for names, the lookup found it); it never has team, parent or state. Each key stores its value: the priority, title and description text, the user and project ids, `[label id]` |
| IssueInput.UpdateIssue | scripts/linear-api.ts:408-493 | The method produces exactly `UpdateOutcome`: usage error, then identifier resolution, then field lookups, then the empty-update refusal. Its properties are proved by `UpdateNeedsIdentifier`, `UpdateOutcomeCases` and `EmptyUpdateRefused` |
| IssueInput.AssembleUpdate | scripts/linear-api.ts:420-475 | Field-by-field assembly yields `UpdateFields`. The assignee is checked before the project |
| IssueInput.EmptyUpdateFields | scripts/linear-api.ts:477-480 | The assembled record is empty iff no field flag has a value, except possibly a label that was not found |
| IssueInput.EmptyUpdateRefused | scripts/linear-api.ts:477-480 | An update sent never has an empty `input`. The no-fields error arises exactly when everything else succeeded with an empty record |
| IssueInput.UpdateOutcomeCases | scripts/linear-api.ts:417-480 | Once the issue resolves: an unknown assignee gives the user-not-found error; failing that, an unknown project gives the project-not-found error. With both lookups fine, the update goes ahead iff the assembled record is non-empty. A successful update sends `UpdateInput` for the resolved issue id |
| IssueInput.UpdateNeedsIdentifier | scripts/linear-api.ts:409-417 | A missing identifier gives the usage error. An identifier that does not resolve stops the command with its resolution error, before any field lookup. Success needs the identifier to resolve |
| Router.Handler | scripts/linear-api.ts:523-534 | A name has a handler iff it is one of the ten command names, and the handler found has that name |
| Router.HandlerFindsEveryCommand | scripts/linear-api.ts:523-534 | Every command is registered under its own name |
| Router.Route | scripts/linear-api.ts:521-572 | Accepted iff a first argument exists and is a command name. The rest of the arguments go to the command. Otherwise the unknown-command error |
| Router.RouteAsWritten | scripts/linear-api.ts:536 | The guard as written accepts command names and also the property names inherited from `Object.prototype` |
| Router.InheritedNameSlipsThrough | scripts/linear-api.ts:536 | `toString` is not a command, yet the guard as written lets it through; `Route` rejects it |
| Router.RoutersAgreeOffInheritedNames | scripts/linear-api.ts:536 | Apart from inherited names, the guard as written and `Route` accept the same commands and dispatch them the same way |
| Router.Run | scripts/linear-api.ts:521-572 | A failed route gives the unknown-command error. Each of the ten command names gives exactly that command's outcome on the remaining arguments: the handler function, or, for the three step-by-step methods, the specification each is proved equal to |

## Left out

- Network, API key and output are not modelled. The `gql` helper, `fetch`, reading `LINEAR_API_KEY`, console output, JSON printing and exit statuses are all outside the model. Each server answer is a `Lookups` field, and each command ends in the `Request` it would send.
- The GraphQL texts of the queries are not reproduced. A request records only the values the client puts into them. The exception is the filter clauses, which are modelled character for character.
- The server's own matching is not modelled. The server resolves names with `eq` and `containsIgnoreCase`, and the model takes its first answer as given.
- `parseInt` is not modelled. Priority is kept as its raw text. The `--limit` value is kept as the string given. Issue numbers are exact naturals, without the floating-point precision limit of JavaScript numbers.
- Issues.Lower: lower-cases ASCII letters only. JavaScript's `toLowerCase` also folds other alphabets, which the model does not.
- `async`/`await` is not modelled. Every command awaits each call in turn, so the model is sequential.
- IssueInput.AssembleUpdate: the field-by-field half of `updateIssue` is a method of its own. `input` is a `map` keyed by an enumeration of its field names, not a JavaScript object.
- `input` key order is not modelled. It only affects how the JSON is serialised.
- Calling an inherited `Object.prototype` member as if it were a command is not modelled. `Run` dispatches through `Route`, the corrected guard; `RouteAsWritten` models only which names the guard as written lets through.

## Findings

| source | as written | input that shows it | evidently intended | confidence | as-written member | corrected member |
|---|---|---|---|---|---|---|
| scripts/linear-api.ts:536 | `!commands[command]` looks the name up on a plain object literal. Names inherited from `Object.prototype` are truthy there and pass the guard | `linear-api.ts toString` gets past the usage check and calls `Object.prototype.toString` as if it were a command, without the usage message | Accept only the ten registered command names | not executed | Router.RouteAsWritten, Router.InheritedNameSlipsThrough | Router.Route |
