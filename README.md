# github-notifier: activity detection, review-request merge and the poll tick

This project models, in Dafny, the decision logic of github-notifier. This
is a poller that raises a desktop alert when pull requests await the
viewer's review, or when the viewer's own pull requests receive new reviews
or completed checks.

- `Activity` (activity.dfy) models `GetNewReviewsOrNewChecks` of
  worker/github/user.go, from the decoded search nodes on:
  - it classifies each pull request's status-rollup context nodes by the
    prefix of their `id`;
  - `CR_` is a check run, `SC_` is a status context, and a `PENDING` status
    context ends the pull request's list;
  - it keeps the checks and reviews strictly newer than `since`;
  - it reports the pull requests that keep anything.
- `Team` (team.dfy) models `GetPullRequests` and the edge flattening of
  `searchPullRequests` in cli/github/team.go:
  - it builds the direct query (one `author:` term per allowed author) and
    the team-wide query, both ending in `created:>=`;
  - it merges in the team-wide results whose author is allowed and whose
    URL is not yet present.
- `Notifications` (notifications.dfy) models one tick of `RunNotifications`
  in cli/features/notifications.go:
  - it chooses the lower bound (a day back on the first tick, a minute and a
    second back afterwards) and runs both searches with it;
  - it composes the two messages;
  - it raises at most one alert.

  The class `Notifier` holds `firstTime` and the log of alert bodies
  (`alerts`). `Tick` updates them in place.
- `Common`, `Strings` and `Seqs` hold the shared result types:
  - prefix tests, `strings.Join` and its inverse `Split`;
  - `%d` formatting;
  - an order-preserving `Filter` with its subsequence relation.

Every loop of the core that the model keeps is an imperative method proved
against a recursive specification function, either equal to it or element
by element:
- the context, freshness and output loops of user.go;
- the author-term, edge and merge loops of team.go.

The properties are proved as lemmas about those functions.

Some loops are not kept. The review copy loop is an identity on the
modelled fields. The print loops only write to the terminal. The ticker
loop is modelled as one `Tick` per iteration.

Time is an integer number of nanoseconds. RFC 3339 parsing (section 5.6 of
RFC 3339) is the parameter `parse: string -> Option<int>`, where `None`
stands for Go's parse error. Rendering a time in UTC is the parameter
`format: int -> string`. The GitHub searches, including the HTTP transport
and JSON decoding, are parameters too:
- `searchEdges: string -> Result<seq<Edge>>` for team.go;
- `searchNodes: string -> Result<seq<PullRequestNode>>` for user.go.

Both are keyed by the query text. So the model can state which query each
call issues, and that both searches of a tick use the same lower bound. A
returned `error` is a `Failure` value. So is the `panic` on a search error
(cli/features/notifications.go:54, 69). The panics of the type assertions
are excluded by a requirement instead (see "## Left out"). The panic on a
missing token is not modelled.

## Model

| member | source | states |
|---|---|---|
| Activity.ClassifyOne | worker/github/user.go:178-219 | `CR_`: name and status copied; null completedAt stays absent, otherwise it is parsed; null conclusion becomes ""; fails iff a present completedAt does not parse. `SC_` (and not `CR_`): fails iff createdAt does not parse; otherwise stops iff the state is PENDING, else yields status COMPLETED, name = context, conclusion = state, completedAt = parsed createdAt. Any other prefix: skipped, no error. Every failure is a time-parse error |
| Activity.ClassifyChecks | worker/github/user.go:176-220 | the inner loop over the context nodes, with its early `break` and error returns, computes exactly `ClassifyContexts` |
| Activity.KeepFreshChecks | worker/github/user.go:232-236 | the append loop computes exactly `FreshChecks` |
| Activity.KeepFreshReviews | worker/github/user.go:237-241 | the append loop computes exactly `FreshReviews` |
| Activity.CollectActivity | worker/github/user.go:167-249 | the outer loop over the search nodes computes exactly `Activity`, returning the first error with no outputs |
| Activity.GetNewReviewsOrNewChecks | worker/github/user.go:80-249 | issues the search `is:open is:pr author:<author>` and returns its error, or the outputs `Activity` gives for its nodes |
| Activity.OtherNodeSkipped | worker/github/user.go:217-219 | removing a node whose id has neither prefix, wherever it stands, leaves the classification (checks or error) unchanged |
| Activity.PendingStopsClassification | worker/github/user.go:206-209 | with a PENDING status context whose timestamp parses, the result is that of the contexts before it: the earlier checks are kept, and it and every later node contribute nothing |
| Activity.ParseFailureAbortsList | worker/github/user.go:178-209 | any context reached by the loop whose timestamp does not parse fails the whole list with that timestamp's error: a check run's present completedAt, or a status context's createdAt, which is parsed before its state is looked at, so a pending one fails too |
| Activity.ClassifyContextsBound | worker/github/user.go:176-220 | at most one check per context node |
| Activity.PendingExample | worker/github/user.go:199-216 | for a check run, a pending status context and a check run, only the first check is produced |
| Activity.FreshChecksSpec | worker/github/user.go:232-236 | a check is kept iff its completion time is present and strictly after `since` (one at `since` is dropped); the kept checks are a subsequence, in order |
| Activity.FreshReviewsSpec | worker/github/user.go:237-241 | a review is kept iff updated strictly after `since`; the kept reviews are a subsequence, in order |
| Activity.Candidates | worker/github/user.go:168-241 | one entry per node, in node order: its summary and its fresh checks and reviews |
| Activity.ActivityIsFilteredCandidates | worker/github/user.go:243-246 | when every node classifies, the outputs are the candidate entries with a fresh check or review, in search order |
| Activity.ActivityOutputs | worker/github/user.go:168-246 | the call succeeds when every node classifies; an entry is in the outputs iff it is a candidate with at least one fresh check or review; the outputs are a subsequence of the candidates |
| Activity.ActivitySuccessIff | worker/github/user.go:183-204 | the call succeeds iff every pull request's contexts classify without a parse error |
| Activity.ActivityFailsOnFirstError | worker/github/user.go:183-204 | the first pull request whose contexts fail decides the error; no partial outputs are returned |
| Team.AuthorTerms | cli/github/team.go:95-98 | one `author:X` term per allowed author, in order |
| Team.BuildAuthorTerms | cli/github/team.go:95-98 | the `strAuthors` loop yields one `author:X` term per author, in order |
| Team.Nodes | cli/github/team.go:87-91 | exactly the `node` of each edge, in edge order |
| Team.SearchPullRequests | cli/github/team.go:87-91 | a failed search is returned as is; otherwise the result is exactly the `node` of each edge, in edge order |
| Team.MergeTeamPullRequests | cli/github/team.go:113-128 | the nested loop with its `exists` flag and `break` computes exactly `Merge` |
| Team.GetPullRequests | cli/github/team.go:94-131 | issues the direct query, then the team-wide query with the same rendered bound, and returns the first error or the merge of the two results |
| Team.QueriesEndWithCreatedClause | cli/github/team.go:100-108 | both queries end with ` created:>=` followed by the rendered lower bound |
| Team.AuthorClauseRoundTrip | cli/github/team.go:95-100 | the space-joined author clause splits back into exactly one `author:X` term per author, in order, when no login contains a space |
| Team.MergeAppendsOnly | cli/github/team.go:113-128 | the direct results are an unchanged prefix; the length grows by at most the team-wide count; every appended entry is a team-wide pull request by an allowed author whose URL differs from every entry before it, appended ones included |
| Team.MergeDistinctUrls | cli/github/team.go:116-126 | distinct URLs in the direct results give distinct URLs in the merge |
| Team.MergeCovers | cli/github/team.go:113-128 | every direct entry and every team-wide entry by an allowed author is represented by its URL in the merge |
| Team.MergeNothingNew | cli/github/team.go:116-125 | nothing is appended when every allowed team-wide URL is already present |
| Team.MergeIdempotent | cli/github/team.go:113-128 | merging the same team-wide results into the merge again adds nothing |
| Team.PullRequestsErrors | cli/github/team.go:102-112 | an error from the direct search, or from the team-wide search after a successful direct one, is the call's error and no list is returned |
| Strings.SplitJoin | cli/github/team.go:100 | `strings.Join` is undone by splitting at the separator when no part contains it |
| Strings.DecimalRoundTrip | cli/features/notifications.go:59 | the `%d` rendering of a count reads back as that count |
| Notifications.MessagesDiffer | cli/features/notifications.go:59-73 | the PR message and the activity message never coincide |
| Notifications.NoNewlineInMessages | cli/features/notifications.go:59-73 | neither message contains a newline |
| Notifications.PrMessageDeterminesCount | cli/features/notifications.go:59 | equal PR messages carry equal counts |
| Notifications.ActivityMessageDeterminesCount | cli/features/notifications.go:73 | equal activity messages carry equal counts |
| Notifications.MessagesSpec | cli/features/notifications.go:57-73 | at most two messages, none iff both counts are zero; the PR message is present iff its count is positive and then comes first; the activity message is present iff its count is positive; no message has a newline |
| Notifications.Poll | cli/features/notifications.go:47-73 | runs the review-request search and the activity search with the given bound and the fixed arguments; gives the first error, or the messages for the two result counts |
| Notifications.Notifier.constructor | cli/features/notifications.go:36 | a fresh poller has `firstTime` set, no alert raised and the source's fixed search arguments |
| Notifications.Notifier.Tick | cli/features/notifications.go:39-87 | uses the lower bound `now - 24h` on the first tick and `now - 1m - 1s` afterwards for both searches; `firstTime` is false after every tick and true only before the first; appends one alert iff the tick succeeds with at least one message, its body being the messages joined by newlines |
| Notifications.LowerBoundProgress | cli/features/notifications.go:39-45 | the lower bound never moves back while the clock does not; a later tick at most 61 s after an earlier one looks back at least to the earlier one's instant |
| Notifications.AlertCarriesMessages | cli/features/notifications.go:85-87 | the alert body splits at newlines back into the messages, PR message first |
| Notifications.TickMessages | cli/features/notifications.go:53-87 | the tick fails iff a search fails, and then raises no alert; otherwise a PR message is present iff the merged list is non-empty and carries its length; an activity message is present iff the outputs are non-empty and carries the number of output pull requests (not of reviews or checks); one alert is raised iff either count is positive |

## Left out

- HTTP transport, GraphQL request text, JSON decoding and the `first: 10` / `first: 100` page sizes (worker/github/user.go:84-165, cli/github/team.go:37-86) are folded into the search parameters, since they are network I/O. In user.go:149-150 the status code is read before the transport error is checked; this concerns I/O only.
- Go's type assertions on the untyped context maps, which panic on a missing or mistyped field, are not modelled. The context node is a datatype with one variant per shape. The requirement `WellTyped` (and `ResponseWellTyped` on a search response) says that an id with a known prefix belongs to the matching shape.
- RFC 3339 parsing and UTC formatting are the parameters `parse` and `format`. Their formats are not modelled.
- `Contains` is not part of this model. It is taken to be sequence membership (`in`).
- The copy loop at worker/github/user.go:222-229 rebuilds each review field by field. It is the identity on the modelled fields, so a node's reviews are used directly.
- `slog` debug logging and `terminal.ColorfulPrintf` are left out: they are output only. `beeep.Alert` is modelled as appending its body to `Notifier.alerts`; its title and icon are left out.
- The token lookup and its `panic` when the token is missing (cli/features/notifications.go:28-31) are not modelled. They are configuration, not decision logic.
- The ticker, the infinite loop and `panic` are left out:
  - one call of `Tick` is one iteration, and the clock reading is the parameter `now`;
  - a `panic` on a search error is a `Failure` result, after which the source's process would end;
  - `firstTime` is cleared before the searches, as in the source, so it is cleared even when a search fails.
- On the first iteration the source reads the clock twice (lines 39 and 43). The model reads it once, as `now`.
- The `strings.Join` separators, the space in team.go:100 and the newline in notifications.go:86, are modelled as one character each.
- The CLI and configuration plumbing (cobra, viper, prompts, editor launch) and the worker's command wiring are not part of this model.
