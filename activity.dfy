/** New reviews and completed checks on the viewer's own pull requests:
    `GetNewReviewsOrNewChecks` in worker/github/user.go, from the decoded
    search nodes on. Timestamps are integers (nanoseconds, as Go's
    `time.Time` orders them); RFC 3339 parsing is the parameter `parse`,
    which returns `None` where Go's `time.Parse` returns an error. */
module Activity {
  import opened Common
  import opened Strings
  import opened Seqs

  type TimeParser = string -> Option<int>

  /** A review as decoded from `reviews.nodes`. */
  datatype Review = Review(author: string, updatedAt: int, state: string)

  /** The normalised check record (`CheckRun` in the source). */
  datatype CheckRun = CheckRun(name: string, status: string, completedAt: Option<int>, conclusion: string)

  /** One entry of `statusCheckRollup.contexts.nodes`. The source holds it in an
      untyped map and tells the shapes apart by the prefix of its `id`; the
      variants name the fields each shape carries (`None` is a JSON null). */
  datatype ContextNode =
    | CheckRunNode(id: string, name: string, status: string, completedAt: Option<string>, conclusion: Option<string>)
    | StatusContextNode(id: string, state: string, createdAt: string, context: string)
    | OtherNode(id: string)

  datatype PullRequestSummary = PullRequestSummary(author: string, title: string, url: string)

  /** A decoded search node: a pull request with its check contexts and reviews. */
  datatype PullRequestNode = PullRequestNode(summary: PullRequestSummary, contexts: seq<ContextNode>, reviews: seq<Review>)

  /** What is reported for one pull request: its fresh checks and reviews. */
  datatype Output = Output(pullRequest: PullRequestSummary, checks: seq<CheckRun>, reviews: seq<Review>)

  /** What one context node contributes to its pull request's checks. */
  datatype Step = Emit(check: CheckRun) | Skip | Stop

  type NodeSearch = string -> Result<seq<PullRequestNode>>

  const CheckRunPrefix := "CR_"
  const StatusContextPrefix := "SC_"
  const Pending := "PENDING"
  const Completed := "COMPLETED"

  /** The source's type assertions succeed: an id with the check-run prefix
      belongs to a check-run node, and otherwise an id with the
      status-context prefix belongs to a status-context node. */
  predicate WellTyped(n: ContextNode)
  {
    && (HasPrefix(n.id, CheckRunPrefix) ==> n.CheckRunNode?)
    && (!HasPrefix(n.id, CheckRunPrefix) && HasPrefix(n.id, StatusContextPrefix) ==> n.StatusContextNode?)
  }

  predicate ContextsWellTyped(contexts: seq<ContextNode>)
  {
    forall j :: 0 <= j < |contexts| ==> WellTyped(contexts[j])
  }

  predicate NodesWellTyped(nodes: seq<PullRequestNode>)
  {
    forall i :: 0 <= i < |nodes| ==> ContextsWellTyped(nodes[i].contexts)
  }

  predicate ResponseWellTyped(response: Result<seq<PullRequestNode>>)
  {
    response.Success? ==> NodesWellTyped(response.value)
  }

  /** The search the source issues for `author`'s open pull requests. */
  function ActivityQuery(author: string): string
  {
    "is:open is:pr author:" + author
  }

  /** Classification of one context node by the prefix of its id. */
  function ClassifyOne(n: ContextNode, parse: TimeParser): (r: Result<Step>)
    requires WellTyped(n)
    // a check run: name and status copied, a null completion time stays absent,
    // a null conclusion becomes the empty string; only a bad timestamp fails
    ensures HasPrefix(n.id, CheckRunPrefix) ==>
      (r.Failure? <==> n.completedAt.Some? && parse(n.completedAt.value).None?)
    ensures HasPrefix(n.id, CheckRunPrefix) && r.Success? ==>
      && r.value.Emit?
      && r.value.check.name == n.name
      && r.value.check.status == n.status
      && (n.completedAt.None? <==> r.value.check.completedAt.None?)
      && (n.completedAt.Some? ==> r.value.check.completedAt == parse(n.completedAt.value))
      && r.value.check.conclusion == (if n.conclusion.Some? then n.conclusion.value else "")
    // a status context: its createdAt is parsed even when it is still pending
    ensures !HasPrefix(n.id, CheckRunPrefix) && HasPrefix(n.id, StatusContextPrefix) ==>
      && (r.Failure? <==> parse(n.createdAt).None?)
      && (r.Success? ==> (r.value.Stop? <==> n.state == Pending))
      && (r.Success? && n.state != Pending ==>
            r.value == Emit(CheckRun(n.context, Completed, parse(n.createdAt), n.state)))
    // anything else is skipped without error
    ensures !HasPrefix(n.id, CheckRunPrefix) && !HasPrefix(n.id, StatusContextPrefix) ==> r == Success(Skip)
    ensures r.Failure? ==> r.error.TimeParseError?
  {
    if HasPrefix(n.id, CheckRunPrefix) then
      var conclusion := if n.conclusion.Some? then n.conclusion.value else "";
      if n.completedAt.None? then
        Success(Emit(CheckRun(n.name, n.status, None, conclusion)))
      else
        match parse(n.completedAt.value)
        case None => Failure(TimeParseError(n.completedAt.value))
        case Some(t) => Success(Emit(CheckRun(n.name, n.status, Some(t), conclusion)))
    else if HasPrefix(n.id, StatusContextPrefix) then
      match parse(n.createdAt)
      case None => Failure(TimeParseError(n.createdAt))
      case Some(t) =>
        if n.state == Pending then Success(Stop)
        else Success(Emit(CheckRun(n.context, Completed, Some(t), n.state)))
    else
      Success(Skip)
  }

  /** `prefix` put in front of a successful result; a failure stays as it is. */
  function Prepend<T>(prefix: seq<T>, r: Result<seq<T>>): Result<seq<T>>
  {
    match r
    case Success(v) => Success(prefix + v)
    case Failure(e) => Failure(e)
  }

  lemma PrependNothing<T>(r: Result<seq<T>>)
    ensures Prepend([], r) == r
  {
    if r.Success? {
      assert [] + r.value == r.value;
    }
  }

  lemma PrependPrepend<T>(a: seq<T>, b: seq<T>, r: Result<seq<T>>)
    ensures Prepend(a, Prepend(b, r)) == Prepend(a + b, r)
  {
    if r.Success? {
      assert a + (b + r.value) == (a + b) + r.value;
    }
  }

  /** The checks of one pull request, in context order: the first timestamp
      that does not parse fails the whole list, and a pending status context
      ends it. */
  function ClassifyContexts(contexts: seq<ContextNode>, parse: TimeParser): Result<seq<CheckRun>>
    requires ContextsWellTyped(contexts)
    decreases |contexts|
  {
    if contexts == [] then Success([])
    else
      match ClassifyOne(contexts[0], parse)
      case Failure(e) => Failure(e)
      case Success(Stop) => Success([])
      case Success(Skip) => ClassifyContexts(contexts[1..], parse)
      case Success(Emit(c)) => Prepend([c], ClassifyContexts(contexts[1..], parse))
  }

  predicate IsFreshCheck(c: CheckRun, since: int)
  {
    c.completedAt.Some? && c.completedAt.value > since
  }

  function KeepFreshCheck(since: int): CheckRun -> bool
  {
    c => IsFreshCheck(c, since)
  }

  function FreshChecks(checks: seq<CheckRun>, since: int): seq<CheckRun>
  {
    Filter(checks, KeepFreshCheck(since))
  }

  predicate IsFreshReview(r: Review, since: int)
  {
    r.updatedAt > since
  }

  function KeepFreshReview(since: int): Review -> bool
  {
    r => IsFreshReview(r, since)
  }

  function FreshReviews(reviews: seq<Review>, since: int): seq<Review>
  {
    Filter(reviews, KeepFreshReview(since))
  }

  predicate HasNews(o: Output)
  {
    |o.checks| > 0 || |o.reviews| > 0
  }

  /** What one pull request contributes to the outputs: nothing or one entry. */
  function NodeOutputs(n: PullRequestNode, since: int, parse: TimeParser): Result<seq<Output>>
    requires ContextsWellTyped(n.contexts)
  {
    match ClassifyContexts(n.contexts, parse)
    case Failure(e) => Failure(e)
    case Success(checks) =>
      var o := Output(n.summary, FreshChecks(checks, since), FreshReviews(n.reviews, since));
      Success(if HasNews(o) then [o] else [])
  }

  /** The outputs for a list of search nodes; the first classification error
      fails the whole list. */
  function Activity(nodes: seq<PullRequestNode>, since: int, parse: TimeParser): Result<seq<Output>>
    requires NodesWellTyped(nodes)
    decreases |nodes|
  {
    if nodes == [] then Success([])
    else
      match NodeOutputs(nodes[0], since, parse)
      case Failure(e) => Failure(e)
      case Success(outs) => Prepend(outs, Activity(nodes[1..], since, parse))
  }

  /** What `GetNewReviewsOrNewChecks(author, since)` returns for a search service. */
  function ActivityResult(author: string, since: int, search: NodeSearch, parse: TimeParser): Result<seq<Output>>
    requires ResponseWellTyped(search(ActivityQuery(author)))
  {
    match search(ActivityQuery(author))
    case Failure(e) => Failure(e)
    case Success(nodes) => Activity(nodes, since, parse)
  }

  // ---------------------------------------------------------------------------
  // The loops of the source, proved against the functions above.

  /** The inner loop over a pull request's context nodes. */
  method ClassifyChecks(contexts: seq<ContextNode>, parse: TimeParser) returns (r: Result<seq<CheckRun>>)
    requires ContextsWellTyped(contexts)
    ensures r == ClassifyContexts(contexts, parse)
  {
    var checks: seq<CheckRun> := [];
    var j := 0;
    assert contexts[0..] == contexts;
    PrependNothing(ClassifyContexts(contexts, parse));
    while j < |contexts|
      invariant 0 <= j <= |contexts|
      invariant Prepend(checks, ClassifyContexts(contexts[j..], parse)) == ClassifyContexts(contexts, parse)
    {
      var n := contexts[j];
      assert contexts[j..][0] == n && contexts[j..][1..] == contexts[j + 1..];
      if HasPrefix(n.id, CheckRunPrefix) {
        var completedAt: Option<int> := None;
        if n.completedAt.Some? {
          var parsed := parse(n.completedAt.value);
          if parsed.None? {
            return Failure(TimeParseError(n.completedAt.value));
          }
          completedAt := parsed;
        }
        var conclusion := "";
        if n.conclusion.Some? {
          conclusion := n.conclusion.value;
        }
        var check := CheckRun(n.name, n.status, completedAt, conclusion);
        PrependPrepend(checks, [check], ClassifyContexts(contexts[j + 1..], parse));
        checks := checks + [check];
      } else if HasPrefix(n.id, StatusContextPrefix) {
        var parsed := parse(n.createdAt);
        if parsed.None? {
          return Failure(TimeParseError(n.createdAt));
        }
        if n.state == Pending {
          assert ClassifyContexts(contexts[j..], parse) == Success([]);
          assert checks + [] == checks;
          break;
        }
        var check := CheckRun(n.context, Completed, parsed, n.state);
        PrependPrepend(checks, [check], ClassifyContexts(contexts[j + 1..], parse));
        checks := checks + [check];
      }
      j := j + 1;
    }
    if j == |contexts| {
      assert contexts[j..] == [];
      assert checks + [] == checks;
    }
    r := Success(checks);
  }

  /** The loop keeping the checks completed strictly after `since`. */
  method KeepFreshChecks(checks: seq<CheckRun>, since: int) returns (kept: seq<CheckRun>)
    ensures kept == FreshChecks(checks, since)
  {
    kept := [];
    for k := 0 to |checks|
      invariant kept == FreshChecks(checks[..k], since)
    {
      var check := checks[k];
      assert checks[..k + 1] == checks[..k] + [check];
      FilterConcat(checks[..k], [check], KeepFreshCheck(since));
      if check.completedAt.Some? && check.completedAt.value > since {
        kept := kept + [check];
      }
    }
    assert checks[..|checks|] == checks;
  }

  /** The loop keeping the reviews updated strictly after `since`. */
  method KeepFreshReviews(reviews: seq<Review>, since: int) returns (kept: seq<Review>)
    ensures kept == FreshReviews(reviews, since)
  {
    kept := [];
    for k := 0 to |reviews|
      invariant kept == FreshReviews(reviews[..k], since)
    {
      var review := reviews[k];
      assert reviews[..k + 1] == reviews[..k] + [review];
      FilterConcat(reviews[..k], [review], KeepFreshReview(since));
      if review.updatedAt > since {
        kept := kept + [review];
      }
    }
    assert reviews[..|reviews|] == reviews;
  }

  /** The outer loop over the search nodes (the body of the source function
      after the response is decoded). */
  method CollectActivity(nodes: seq<PullRequestNode>, since: int, parse: TimeParser) returns (r: Result<seq<Output>>)
    requires NodesWellTyped(nodes)
    ensures r == Activity(nodes, since, parse)
  {
    var outputs: seq<Output> := [];
    assert nodes[0..] == nodes;
    PrependNothing(Activity(nodes, since, parse));
    for i := 0 to |nodes|
      invariant Prepend(outputs, Activity(nodes[i..], since, parse)) == Activity(nodes, since, parse)
    {
      var node := nodes[i];
      assert nodes[i..][0] == node && nodes[i..][1..] == nodes[i + 1..];
      var checks := ClassifyChecks(node.contexts, parse);
      if checks.Failure? {
        return Failure(checks.error);
      }
      var freshChecks := KeepFreshChecks(checks.value, since);
      var freshReviews := KeepFreshReviews(node.reviews, since);
      var output := Output(node.summary, freshChecks, freshReviews);
      var added := if |output.checks| > 0 || |output.reviews| > 0 then [output] else [];
      PrependPrepend(outputs, added, Activity(nodes[i + 1..], since, parse));
      outputs := outputs + added;
    }
    assert nodes[|nodes|..] == [];
    assert outputs + [] == outputs;
    r := Success(outputs);
  }

  /** `GetNewReviewsOrNewChecks(author, since)`: one search, then the loops. */
  method GetNewReviewsOrNewChecks(author: string, since: int, search: NodeSearch, parse: TimeParser)
    returns (r: Result<seq<Output>>)
    requires ResponseWellTyped(search(ActivityQuery(author)))
    ensures r == ActivityResult(author, since, search, parse)
  {
    var response := search(ActivityQuery(author));
    if response.Failure? {
      return Failure(response.error);
    }
    r := CollectActivity(response.value, since, parse);
  }

  // ---------------------------------------------------------------------------
  // Properties of the classification.

  /** A node whose id has neither known prefix contributes nothing, wherever
      it stands, and causes no error. */
  lemma {:induction false} OtherNodeSkipped(pre: seq<ContextNode>, n: ContextNode, post: seq<ContextNode>, parse: TimeParser)
    requires ContextsWellTyped(pre + [n] + post)
    requires !HasPrefix(n.id, CheckRunPrefix) && !HasPrefix(n.id, StatusContextPrefix)
    ensures ContextsWellTyped(pre + post)
    ensures ClassifyContexts(pre + [n] + post, parse) == ClassifyContexts(pre + post, parse)
    decreases |pre|
  {
    var all := pre + [n] + post;
    assert forall j :: 0 <= j < |pre + post| ==> (pre + post)[j] == all[if j < |pre| then j else j + 1];
    if pre == [] {
      assert all[0] == n && all[1..] == post;
      assert pre + post == post;
    } else {
      assert all[0] == pre[0] && all[1..] == pre[1..] + [n] + post;
      assert (pre + post)[0] == pre[0] && (pre + post)[1..] == pre[1..] + post;
      OtherNodeSkipped(pre[1..], n, post, parse);
    }
  }

  /** A pending status context whose timestamp parses ends the list: the
      result is that of the contexts before it, and nothing after it counts. */
  lemma {:induction false} PendingStopsClassification(pre: seq<ContextNode>, n: ContextNode, post: seq<ContextNode>, parse: TimeParser)
    requires ContextsWellTyped(pre + [n] + post)
    requires !HasPrefix(n.id, CheckRunPrefix) && HasPrefix(n.id, StatusContextPrefix)
    requires n.StatusContextNode? && n.state == Pending && parse(n.createdAt).Some?
    ensures ContextsWellTyped(pre)
    ensures ClassifyContexts(pre + [n] + post, parse) == ClassifyContexts(pre, parse)
    decreases |pre|
  {
    var all := pre + [n] + post;
    assert forall j :: 0 <= j < |pre| ==> pre[j] == all[j];
    if pre == [] {
      assert all[0] == n;
    } else {
      assert all[0] == pre[0] && all[1..] == pre[1..] + [n] + post;
      PendingStopsClassification(pre[1..], n, post, parse);
    }
  }

  /** Every node of `pre` is classified into a check or skipped: no error and
      no pending status context among them. */
  predicate RunsThrough(pre: seq<ContextNode>, parse: TimeParser)
    requires ContextsWellTyped(pre)
  {
    forall j :: 0 <= j < |pre| ==> ClassifyOne(pre[j], parse).Success? && !ClassifyOne(pre[j], parse).value.Stop?
  }

  /** A context reached by the loop whose timestamp does not parse (a check
      run's completedAt, or a status context's createdAt, pending or not)
      fails the whole list with that timestamp's error. */
  lemma {:induction false} ParseFailureAbortsList(pre: seq<ContextNode>, n: ContextNode, post: seq<ContextNode>, parse: TimeParser)
    requires ContextsWellTyped(pre + [n] + post)
    requires WellTyped(n) && ClassifyOne(n, parse).Failure?
    requires ContextsWellTyped(pre) && RunsThrough(pre, parse)
    ensures ClassifyContexts(pre + [n] + post, parse) == Failure(ClassifyOne(n, parse).error)
    decreases |pre|
  {
    var all := pre + [n] + post;
    if pre == [] {
      assert all[0] == n;
    } else {
      assert all[0] == pre[0] && all[1..] == pre[1..] + [n] + post;
      assert forall j :: 0 <= j < |pre[1..]| ==> pre[1..][j] == pre[j + 1];
      ParseFailureAbortsList(pre[1..], n, post, parse);
    }
  }

  /** At most one check per context node. */
  lemma {:induction false} ClassifyContextsBound(contexts: seq<ContextNode>, parse: TimeParser)
    requires ContextsWellTyped(contexts)
    ensures ClassifyContexts(contexts, parse).Success? ==> |ClassifyContexts(contexts, parse).value| <= |contexts|
    decreases |contexts|
  {
    if contexts != [] {
      ClassifyContextsBound(contexts[1..], parse);
    }
  }

  /** The example of a check run, a pending status context and a second check
      run: only the first check survives. */
  lemma PendingExample(parse: TimeParser)
    requires parse("2024-05-01T10:00:00Z") == Some(100)
    requires parse("2024-05-01T10:01:00Z") == Some(160)
    ensures var contexts := [
      CheckRunNode("CR_build", "build", "COMPLETED", Some("2024-05-01T10:00:00Z"), Some("SUCCESS")),
      StatusContextNode("SC_deploy", Pending, "2024-05-01T10:01:00Z", "deploy"),
      CheckRunNode("CR_lint", "lint", "COMPLETED", Some("2024-05-01T10:00:00Z"), None)];
      ContextsWellTyped(contexts) &&
      ClassifyContexts(contexts, parse) == Success([CheckRun("build", "COMPLETED", Some(100), "SUCCESS")])
  {
    var build := CheckRunNode("CR_build", "build", "COMPLETED", Some("2024-05-01T10:00:00Z"), Some("SUCCESS"));
    var deploy := StatusContextNode("SC_deploy", Pending, "2024-05-01T10:01:00Z", "deploy");
    var lint := CheckRunNode("CR_lint", "lint", "COMPLETED", Some("2024-05-01T10:00:00Z"), None);
    assert HasPrefix(build.id, CheckRunPrefix) && HasPrefix(lint.id, CheckRunPrefix);
    assert deploy.id[..3][0] != CheckRunPrefix[0];
    assert !HasPrefix(deploy.id, CheckRunPrefix) && HasPrefix(deploy.id, StatusContextPrefix);
    PendingStopsClassification([build], deploy, [lint], parse);
    assert [build] + [deploy] + [lint] == [build, deploy, lint];
    var check := CheckRun("build", "COMPLETED", Some(100), "SUCCESS");
    assert ClassifyOne(build, parse) == Success(Emit(check));
    assert [build][1..] == [];
    assert [check] + [] == [check];
  }

  // ---------------------------------------------------------------------------
  // Properties of the freshness filter.

  /** A check is kept iff it has a completion time strictly after `since`:
      one completed exactly at `since` is dropped. The kept checks are in
      their original order. */
  lemma FreshChecksSpec(checks: seq<CheckRun>, since: int)
    ensures forall c :: c in FreshChecks(checks, since) <==>
      c in checks && c.completedAt.Some? && c.completedAt.value > since
    ensures IsSubsequence(FreshChecks(checks, since), checks)
  {
    forall c
      ensures c in FreshChecks(checks, since) <==> c in checks && c.completedAt.Some? && c.completedAt.value > since
    {
      FilterMembership(checks, KeepFreshCheck(since), c);
    }
    FilterIsSubsequence(checks, KeepFreshCheck(since));
  }

  /** A review is kept iff it was updated strictly after `since`, in order. */
  lemma FreshReviewsSpec(reviews: seq<Review>, since: int)
    ensures forall r :: r in FreshReviews(reviews, since) <==> r in reviews && r.updatedAt > since
    ensures IsSubsequence(FreshReviews(reviews, since), reviews)
  {
    forall r
      ensures r in FreshReviews(reviews, since) <==> r in reviews && r.updatedAt > since
    {
      FilterMembership(reviews, KeepFreshReview(since), r);
    }
    FilterIsSubsequence(reviews, KeepFreshReview(since));
  }

  // ---------------------------------------------------------------------------
  // Properties of the outputs.

  predicate AllClassified(nodes: seq<PullRequestNode>, parse: TimeParser)
    requires NodesWellTyped(nodes)
  {
    forall i :: 0 <= i < |nodes| ==> ClassifyContexts(nodes[i].contexts, parse).Success?
  }

  /** The entry each pull request would get, before empty ones are dropped. */
  function Candidates(nodes: seq<PullRequestNode>, since: int, parse: TimeParser): (cs: seq<Output>)
    requires NodesWellTyped(nodes) && AllClassified(nodes, parse)
    ensures |cs| == |nodes|
    ensures forall i :: 0 <= i < |nodes| ==>
      cs[i] == Output(nodes[i].summary,
                      FreshChecks(ClassifyContexts(nodes[i].contexts, parse).value, since),
                      FreshReviews(nodes[i].reviews, since))
    decreases |nodes|
  {
    if nodes == [] then []
    else
      var checks := ClassifyContexts(nodes[0].contexts, parse).value;
      [Output(nodes[0].summary, FreshChecks(checks, since), FreshReviews(nodes[0].reviews, since))]
        + Candidates(nodes[1..], since, parse)
  }

  function KeepNews(): Output -> bool
  {
    o => HasNews(o)
  }

  /** When every pull request classifies, the outputs are exactly the
      candidate entries that have a fresh check or review, in search order. */
  lemma {:induction false} ActivityIsFilteredCandidates(nodes: seq<PullRequestNode>, since: int, parse: TimeParser)
    requires NodesWellTyped(nodes) && AllClassified(nodes, parse)
    ensures Activity(nodes, since, parse) == Success(Filter(Candidates(nodes, since, parse), KeepNews()))
    decreases |nodes|
  {
    if nodes != [] {
      var rest := nodes[1..];
      assert forall i :: 0 <= i < |rest| ==> rest[i] == nodes[i + 1];
      ActivityIsFilteredCandidates(rest, since, parse);
      var cs := Candidates(nodes, since, parse);
      assert cs[0] == cs[..1][0] && cs[1..] == Candidates(rest, since, parse);
    }
  }

  /** A pull request appears in the outputs iff it has at least one fresh
      check or review; the outputs keep the order of the search nodes. */
  lemma ActivityOutputs(nodes: seq<PullRequestNode>, since: int, parse: TimeParser)
    requires NodesWellTyped(nodes) && AllClassified(nodes, parse)
    ensures Activity(nodes, since, parse).Success?
    ensures forall o :: o in Activity(nodes, since, parse).value <==>
      o in Candidates(nodes, since, parse) && HasNews(o)
    ensures IsSubsequence(Activity(nodes, since, parse).value, Candidates(nodes, since, parse))
  {
    ActivityIsFilteredCandidates(nodes, since, parse);
    var cs := Candidates(nodes, since, parse);
    forall o
      ensures o in Filter(cs, KeepNews()) <==> o in cs && HasNews(o)
    {
      FilterMembership(cs, KeepNews(), o);
    }
    FilterIsSubsequence(cs, KeepNews());
  }

  /** The call succeeds iff every pull request's contexts classify. */
  lemma {:induction false} ActivitySuccessIff(nodes: seq<PullRequestNode>, since: int, parse: TimeParser)
    requires NodesWellTyped(nodes)
    ensures Activity(nodes, since, parse).Success? <==> AllClassified(nodes, parse)
    decreases |nodes|
  {
    if nodes != [] {
      var rest := nodes[1..];
      assert forall i :: 0 <= i < |rest| ==> rest[i] == nodes[i + 1];
      ActivitySuccessIff(rest, since, parse);
      if AllClassified(rest, parse) && ClassifyContexts(nodes[0].contexts, parse).Success? {
        assert forall i :: 1 <= i < |nodes| ==> nodes[i] == rest[i - 1];
      }
    }
  }

  /** The first pull request whose contexts fail decides the error, and no
      outputs are returned. */
  lemma {:induction false} ActivityFailsOnFirstError(nodes: seq<PullRequestNode>, k: nat, since: int, parse: TimeParser)
    requires NodesWellTyped(nodes) && k < |nodes|
    requires forall i :: 0 <= i < k ==> ClassifyContexts(nodes[i].contexts, parse).Success?
    requires ClassifyContexts(nodes[k].contexts, parse).Failure?
    ensures Activity(nodes, since, parse) == Failure(ClassifyContexts(nodes[k].contexts, parse).error)
    decreases k
  {
    if k > 0 {
      var rest := nodes[1..];
      assert forall i :: 0 <= i < |rest| ==> rest[i] == nodes[i + 1];
      ActivityFailsOnFirstError(rest, k - 1, since, parse);
    }
  }
}
