/** Pull requests awaiting the viewer's review: `GetPullRequests` and the edge
    flattening of `searchPullRequests` in cli/github/team.go. The search
    service is the parameter `search` (request, transport and JSON decoding
    of the edge-list response), keyed by the query text; rendering a time in
    UTC as RFC 3339 is the parameter `format`. */
module Team {
  import opened Common
  import opened Strings

  datatype PullRequest = PullRequest(author: string, title: string, url: string)

  /** One element of `data.search.edges`. */
  datatype Edge = Edge(node: PullRequest)

  type EdgeSearch = string -> Result<seq<Edge>>
  type TimeFormatter = int -> string

  // ---------------------------------------------------------------------------
  // Query text.

  function AuthorTerm(author: string): string
  {
    "author:" + author
  }

  /** One `author:` term per allowed author, in order. */
  function AuthorTerms(authors: seq<string>): (terms: seq<string>)
    ensures |terms| == |authors|
    ensures forall i :: 0 <= i < |authors| ==> terms[i] == AuthorTerm(authors[i])
    decreases |authors|
  {
    if authors == [] then [] else [AuthorTerm(authors[0])] + AuthorTerms(authors[1..])
  }

  function CreatedClause(timestamp: string): string
  {
    "created:>=" + timestamp
  }

  /** Open pull requests in `org` whose review is requested from `me`, by one
      of `authors`, created at or after `timestamp`. */
  function DirectQuery(me: string, org: string, authors: seq<string>, timestamp: string): string
  {
    "is:pr is:open review-requested:" + me + " org:" + org + " archived:false "
      + Join(AuthorTerms(authors), ' ') + " " + CreatedClause(timestamp)
  }

  /** Open pull requests in `org` whose review is requested from `team`,
      created at or after `timestamp`. */
  function TeamQuery(team: string, org: string, timestamp: string): string
  {
    "is:pr is:open team-review-requested:" + team + " org:" + org + " archived:false " + CreatedClause(timestamp)
  }

  // ---------------------------------------------------------------------------
  // Search results.

  /** The `node` of each edge, in edge order. */
  function Nodes(edges: seq<Edge>): (prs: seq<PullRequest>)
    ensures |prs| == |edges|
    ensures forall i :: 0 <= i < |edges| ==> prs[i] == edges[i].node
    decreases |edges|
  {
    if edges == [] then [] else [edges[0].node] + Nodes(edges[1..])
  }

  /** What `searchPullRequests(query)` returns. */
  function SearchResult(query: string, search: EdgeSearch): Result<seq<PullRequest>>
  {
    match search(query)
    case Failure(e) => Failure(e)
    case Success(edges) => Success(Nodes(edges))
  }

  // ---------------------------------------------------------------------------
  // Merge of the team-wide results into the direct ones.

  predicate UrlOccurs(prs: seq<PullRequest>, url: string)
  {
    exists k :: 0 <= k < |prs| && prs[k].url == url
  }

  /** `acc` extended, in order, by each team-wide pull request whose author is
      allowed and whose URL does not occur in what has been accumulated so far. */
  function Merge(acc: seq<PullRequest>, teamWide: seq<PullRequest>, authors: seq<string>): seq<PullRequest>
    decreases |teamWide|
  {
    if teamWide == [] then acc
    else
      var pr := teamWide[0];
      var next := if pr.author in authors && !UrlOccurs(acc, pr.url) then acc + [pr] else acc;
      Merge(next, teamWide[1..], authors)
  }

  /** What `GetPullRequests(org, team, me, authors, createdAt)` returns. */
  function PullRequestsResult(org: string, team: string, me: string, authors: seq<string>, createdAt: int,
                              search: EdgeSearch, format: TimeFormatter): Result<seq<PullRequest>>
  {
    var timestamp := format(createdAt);
    match SearchResult(DirectQuery(me, org, authors, timestamp), search)
    case Failure(e) => Failure(e)
    case Success(direct) =>
      match SearchResult(TeamQuery(team, org, timestamp), search)
      case Failure(e) => Failure(e)
      case Success(teamWide) => Success(Merge(direct, teamWide, authors))
  }

  // ---------------------------------------------------------------------------
  // The loops of the source, proved against the functions above.

  /** The loop building `strAuthors`. */
  method BuildAuthorTerms(authors: seq<string>) returns (terms: seq<string>)
    ensures |terms| == |authors|
    ensures forall i :: 0 <= i < |authors| ==> terms[i] == "author:" + authors[i]
  {
    terms := [];
    for i := 0 to |authors|
      invariant |terms| == i
      invariant forall k :: 0 <= k < i ==> terms[k] == "author:" + authors[k]
    {
      terms := terms + ["author:" + authors[i]];
    }
  }

  /** `searchPullRequests`: one search, then the loop collecting each edge's node. */
  method SearchPullRequests(query: string, search: EdgeSearch) returns (r: Result<seq<PullRequest>>)
    ensures search(query).Failure? ==> r == Failure(search(query).error)
    ensures search(query).Success? ==>
      && r.Success?
      && |r.value| == |search(query).value|
      && forall i :: 0 <= i < |r.value| ==> r.value[i] == search(query).value[i].node
  {
    var response := search(query);
    if response.Failure? {
      return Failure(response.error);
    }
    var edges := response.value;
    var pullRequests: seq<PullRequest> := [];
    for i := 0 to |edges|
      invariant |pullRequests| == i
      invariant forall k :: 0 <= k < i ==> pullRequests[k] == edges[k].node
    {
      pullRequests := pullRequests + [edges[i].node];
    }
    r := Success(pullRequests);
  }

  /** The nested loop of `GetPullRequests` that appends allowed, not yet
      present team-wide pull requests to the direct ones. */
  method MergeTeamPullRequests(pullRequests: seq<PullRequest>, teamWide: seq<PullRequest>, authors: seq<string>)
    returns (merged: seq<PullRequest>)
    ensures merged == Merge(pullRequests, teamWide, authors)
  {
    merged := pullRequests;
    assert teamWide[0..] == teamWide;
    for i := 0 to |teamWide|
      invariant Merge(merged, teamWide[i..], authors) == Merge(pullRequests, teamWide, authors)
    {
      var pr := teamWide[i];
      assert teamWide[i..][0] == pr && teamWide[i..][1..] == teamWide[i + 1..];
      if pr.author in authors {
        var found := false;
        var j := 0;
        while j < |merged|
          invariant 0 <= j <= |merged|
          invariant !found
          invariant forall k :: 0 <= k < j ==> merged[k].url != pr.url
        {
          if merged[j].url == pr.url {
            found := true;
            break;
          }
          j := j + 1;
        }
        assert found <==> UrlOccurs(merged, pr.url);
        if !found {
          merged := merged + [pr];
        }
      }
    }
    assert teamWide[|teamWide|..] == [];
  }

  /** `GetPullRequests`: the direct search, the team-wide search, the merge. */
  method GetPullRequests(org: string, team: string, me: string, authors: seq<string>, createdAt: int,
                         search: EdgeSearch, format: TimeFormatter) returns (r: Result<seq<PullRequest>>)
    ensures r == PullRequestsResult(org, team, me, authors, createdAt, search, format)
  {
    var strAuthors := BuildAuthorTerms(authors);
    assert strAuthors == AuthorTerms(authors);
    var timestamp := format(createdAt);
    var searchQuery := "is:pr is:open review-requested:" + me + " org:" + org + " archived:false "
      + Join(strAuthors, ' ') + " created:>=" + timestamp;
    assert searchQuery == DirectQuery(me, org, authors, timestamp);
    var pullRequests := SearchPullRequests(searchQuery, search);
    if pullRequests.Failure? {
      return Failure(pullRequests.error);
    }
    assert pullRequests.value == Nodes(search(searchQuery).value);
    var allUsersQuery := "is:pr is:open team-review-requested:" + team + " org:" + org + " archived:false created:>=" + timestamp;
    assert allUsersQuery == TeamQuery(team, org, timestamp);
    var allUsersPRs := SearchPullRequests(allUsersQuery, search);
    if allUsersPRs.Failure? {
      return Failure(allUsersPRs.error);
    }
    assert allUsersPRs.value == Nodes(search(allUsersQuery).value);
    var merged := MergeTeamPullRequests(pullRequests.value, allUsersPRs.value, authors);
    r := Success(merged);
  }

  // ---------------------------------------------------------------------------
  // Properties of the queries.

  /** Both queries end with the same `created:>=` clause, carrying the
      rendered lower bound. */
  lemma QueriesEndWithCreatedClause(me: string, team: string, org: string, authors: seq<string>, timestamp: string)
    ensures HasSuffix(DirectQuery(me, org, authors, timestamp), " created:>=" + timestamp)
    ensures HasSuffix(TeamQuery(team, org, timestamp), " created:>=" + timestamp)
  {
  }

  /** The author clause of the direct query splits back into exactly one
      `author:` term per allowed author, in order, as long as no login
      contains a space. */
  lemma AuthorClauseRoundTrip(authors: seq<string>)
    requires |authors| >= 1
    requires forall i :: 0 <= i < |authors| ==> ' ' !in authors[i]
    ensures Split(Join(AuthorTerms(authors), ' '), ' ') == AuthorTerms(authors)
  {
    var terms := AuthorTerms(authors);
    forall i | 0 <= i < |terms|
      ensures ' ' !in terms[i]
    {
      assert terms[i] == "author:" + authors[i];
      assert forall k :: 0 <= k < |terms[i]| ==> terms[i][k] == if k < 7 then "author:"[k] else authors[i][k - 7];
    }
    SplitJoin(terms, ' ');
  }

  // ---------------------------------------------------------------------------
  // Properties of the merge.

  predicate DistinctUrls(prs: seq<PullRequest>)
  {
    forall i, j :: 0 <= i < j < |prs| ==> prs[i].url != prs[j].url
  }

  /** The merge only appends: the direct results are an unchanged prefix;
      every appended entry is a team-wide pull request by an allowed author
      whose URL occurs nowhere before it; and at most every team-wide entry
      is appended. */
  lemma {:induction false} MergeAppendsOnly(acc: seq<PullRequest>, teamWide: seq<PullRequest>, authors: seq<string>)
    ensures var r := Merge(acc, teamWide, authors);
      && |acc| <= |r| <= |acc| + |teamWide|
      && r[..|acc|] == acc
      && (forall k :: |acc| <= k < |r| ==> r[k] in teamWide && r[k].author in authors)
      && (forall k, j :: |acc| <= k < |r| && 0 <= j < k ==> r[j].url != r[k].url)
    decreases |teamWide|
  {
    if teamWide != [] {
      var pr := teamWide[0];
      var next := if pr.author in authors && !UrlOccurs(acc, pr.url) then acc + [pr] else acc;
      MergeAppendsOnly(next, teamWide[1..], authors);
      var r := Merge(acc, teamWide, authors);
      assert r == Merge(next, teamWide[1..], authors);
      assert r[..|acc|] == r[..|next|][..|acc|];
      forall k | |acc| <= k < |r|
        ensures r[k] in teamWide && r[k].author in authors
      {
        if k >= |next| {
          assert r[k] in teamWide[1..];
        } else {
          assert r[k] == r[..|next|][k] == pr;
        }
      }
      forall k, j | |acc| <= k < |r| && 0 <= j < k
        ensures r[j].url != r[k].url
      {
        if k < |next| {
          assert k == |acc| && r[k] == pr;
          assert r[j] == r[..|acc|][j] == acc[j];
        }
      }
    }
  }

  /** If the direct results have distinct URLs, so does the merge. */
  lemma MergeDistinctUrls(primary: seq<PullRequest>, teamWide: seq<PullRequest>, authors: seq<string>)
    requires DistinctUrls(primary)
    ensures DistinctUrls(Merge(primary, teamWide, authors))
  {
    MergeAppendsOnly(primary, teamWide, authors);
    var r := Merge(primary, teamWide, authors);
    forall i, j | 0 <= i < j < |r|
      ensures r[i].url != r[j].url
    {
      if j < |primary| {
        assert r[i] == primary[i] && r[j] == primary[j];
      }
    }
  }

  /** Every team-wide pull request by an allowed author ends up represented,
      by its URL, in the merge. */
  lemma {:induction false} MergeCovers(acc: seq<PullRequest>, teamWide: seq<PullRequest>, authors: seq<string>)
    ensures forall i :: 0 <= i < |teamWide| && teamWide[i].author in authors ==>
      UrlOccurs(Merge(acc, teamWide, authors), teamWide[i].url)
    ensures forall k :: 0 <= k < |acc| ==> UrlOccurs(Merge(acc, teamWide, authors), acc[k].url)
    decreases |teamWide|
  {
    if teamWide != [] {
      var pr := teamWide[0];
      var next := if pr.author in authors && !UrlOccurs(acc, pr.url) then acc + [pr] else acc;
      MergeCovers(next, teamWide[1..], authors);
      var r := Merge(acc, teamWide, authors);
      forall k | 0 <= k < |acc|
        ensures UrlOccurs(r, acc[k].url)
      {
        assert next[k] == acc[k];
      }
      if pr.author in authors {
        if UrlOccurs(acc, pr.url) {
          var k :| 0 <= k < |acc| && acc[k].url == pr.url;
          assert next[k] == acc[k];
        } else {
          assert next[|acc|] == pr;
        }
      }
      forall i | 0 <= i < |teamWide| && teamWide[i].author in authors
        ensures UrlOccurs(r, teamWide[i].url)
      {
        if i > 0 {
          assert teamWide[i] == teamWide[1..][i - 1];
        }
      }
    }
  }

  /** Nothing is appended when every allowed team-wide URL is already present. */
  lemma {:induction false} MergeNothingNew(acc: seq<PullRequest>, teamWide: seq<PullRequest>, authors: seq<string>)
    requires forall i :: 0 <= i < |teamWide| && teamWide[i].author in authors ==> UrlOccurs(acc, teamWide[i].url)
    ensures Merge(acc, teamWide, authors) == acc
    decreases |teamWide|
  {
    if teamWide != [] {
      assert forall i :: 0 <= i < |teamWide[1..]| ==> teamWide[1..][i] == teamWide[i + 1];
      MergeNothingNew(acc, teamWide[1..], authors);
    }
  }

  /** Merging the same team-wide results again adds nothing. */
  lemma MergeIdempotent(primary: seq<PullRequest>, teamWide: seq<PullRequest>, authors: seq<string>)
    ensures Merge(Merge(primary, teamWide, authors), teamWide, authors) == Merge(primary, teamWide, authors)
  {
    MergeCovers(primary, teamWide, authors);
    MergeNothingNew(Merge(primary, teamWide, authors), teamWide, authors);
  }

  /** A failing search fails the whole call, with that search's error. */
  lemma PullRequestsErrors(org: string, team: string, me: string, authors: seq<string>, createdAt: int,
                           search: EdgeSearch, format: TimeFormatter)
    ensures var timestamp := format(createdAt);
      && (search(DirectQuery(me, org, authors, timestamp)).Failure? ==>
            PullRequestsResult(org, team, me, authors, createdAt, search, format)
              == Failure(search(DirectQuery(me, org, authors, timestamp)).error))
      && (search(DirectQuery(me, org, authors, timestamp)).Success? && search(TeamQuery(team, org, timestamp)).Failure? ==>
            PullRequestsResult(org, team, me, authors, createdAt, search, format)
              == Failure(search(TeamQuery(team, org, timestamp)).error))
  {
  }
}
