/** One poll of `RunNotifications` in cli/features/notifications.go: choose
    the lower bound, run the review-request search and the activity search,
    compose the messages and raise at most one desktop alert. The clock is
    the parameter `now` (nanoseconds); the searches, the RFC 3339 parser and
    the UTC formatter are parameters; the desktop alerts raised so far are
    the field `alerts`. */
module Notifications {
  import opened Common
  import opened Strings
  import Team
  import Activity

  const Second: int := 1_000_000_000
  const Minute: int := 60 * Second
  const Hour: int := 60 * Minute

  /** The arguments of the two searches, which the poller fixes. */
  datatype Config = Config(organization: string, team: string, viewer: string,
                           roster: seq<string>, me: string)

  /** The organization, review team, viewer and author roster of the
      review-request search, and the author of the activity search. */
  const Fixed := Config("egym", "egym/sre", "wassimbenzarti",
                        ["wassimbenzarti", "eldad", "leonnicolas", "eldad", "kolsware", "Akaame",
                         "gjabell", "martykuentzel", "viktorkholod", "jhandguy", "kostya2011"],
                        "@me")

  /** The `created:>=` / `since` bound of a tick: a day back on the first
      tick, a minute and a second back afterwards. */
  function LowerBound(firstTime: bool, now: int): int
  {
    if firstTime then now - 24 * Hour else now - Minute - Second
  }

  function PrMessage(count: nat): string
  {
    "You have " + Decimal(count) + " new PR(s) to review"
  }

  function ActivityMessage(count: nat): string
  {
    "You have " + Decimal(count) + " new review(s) or check(s)"
  }

  /** The two kinds of message never coincide (they end differently). */
  lemma MessagesDiffer(n: nat, m: nat)
    ensures PrMessage(n) != ActivityMessage(m)
  {
    var p := PrMessage(n);
    var a := ActivityMessage(m);
    assert p[|p| - 1] == 'w';
    assert a[|a| - 1] == ')';
  }

  lemma NoNewlineInMessages(n: nat)
    ensures '\n' !in PrMessage(n) && '\n' !in ActivityMessage(n)
  {
  }

  /** The count in a PR message can be read back from the message. */
  lemma PrMessageDeterminesCount(n: nat, m: nat)
    requires PrMessage(n) == PrMessage(m)
    ensures n == m
  {
    var head := "You have ";
    var tail := " new PR(s) to review";
    var p := PrMessage(n);
    assert p == head + Decimal(n) + tail;
    assert |Decimal(n)| == |Decimal(m)|;
    assert Decimal(n) == p[|head|..|p| - |tail|];
    assert Decimal(m) == PrMessage(m)[|head|..|p| - |tail|];
    DecimalInjective(n, m);
  }

  /** The count in an activity message can be read back from the message. */
  lemma ActivityMessageDeterminesCount(n: nat, m: nat)
    requires ActivityMessage(n) == ActivityMessage(m)
    ensures n == m
  {
    var head := "You have ";
    var tail := " new review(s) or check(s)";
    var a := ActivityMessage(n);
    assert a == head + Decimal(n) + tail;
    assert |Decimal(n)| == |Decimal(m)|;
    assert Decimal(n) == a[|head|..|a| - |tail|];
    assert Decimal(m) == ActivityMessage(m)[|head|..|a| - |tail|];
    DecimalInjective(n, m);
  }

  /** The messages of a tick for `prCount` pull requests awaiting review and
      `activityCount` pull requests with fresh activity, PR message first. */
  function Messages(prCount: nat, activityCount: nat): seq<string>
  {
    (if prCount > 0 then [PrMessage(prCount)] else [])
      + (if activityCount > 0 then [ActivityMessage(activityCount)] else [])
  }

  /** Each message is there iff its count is positive, the PR message comes
      first, and no message holds a newline (so the alert body splits back
      into them). */
  lemma MessagesSpec(prCount: nat, activityCount: nat)
    ensures var ms := Messages(prCount, activityCount);
      && |ms| <= 2
      && (ms == [] <==> prCount == 0 && activityCount == 0)
      && (PrMessage(prCount) in ms <==> prCount > 0)
      && (ActivityMessage(activityCount) in ms <==> activityCount > 0)
      && (prCount > 0 ==> ms[0] == PrMessage(prCount))
      && (forall i :: 0 <= i < |ms| ==> '\n' !in ms[i])
  {
    MessagesDiffer(prCount, activityCount);
    NoNewlineInMessages(prCount);
    NoNewlineInMessages(activityCount);
  }

  type Parser = string -> Option<int>

  /** What a tick with lower bound `bound` reports: the messages, or the
      first search error. */
  function TickResult(cfg: Config, bound: int, searchEdges: Team.EdgeSearch, searchNodes: Activity.NodeSearch,
                      parse: Parser, format: Team.TimeFormatter): Result<seq<string>>
    requires Activity.ResponseWellTyped(searchNodes(Activity.ActivityQuery(cfg.me)))
  {
    match Team.PullRequestsResult(cfg.organization, cfg.team, cfg.viewer, cfg.roster, bound, searchEdges, format)
    case Failure(e) => Failure(e)
    case Success(prs) =>
      match Activity.ActivityResult(cfg.me, bound, searchNodes, parse)
      case Failure(e) => Failure(e)
      case Success(outputs) => Success(Messages(|prs|, |outputs|))
  }

  /** The alert a tick raises: one, carrying all messages, iff there are any. */
  function AlertsFor(r: Result<seq<string>>): seq<string>
  {
    if r.Success? && r.value != [] then [Join(r.value, '\n')] else []
  }

  /** The searches and the messages of one tick. */
  method Poll(cfg: Config, createdAt: int, searchEdges: Team.EdgeSearch, searchNodes: Activity.NodeSearch,
              parse: Parser, format: Team.TimeFormatter) returns (r: Result<seq<string>>)
    requires Activity.ResponseWellTyped(searchNodes(Activity.ActivityQuery(cfg.me)))
    ensures r == TickResult(cfg, createdAt, searchEdges, searchNodes, parse, format)
  {
    var pullRequests := Team.GetPullRequests(cfg.organization, cfg.team, cfg.viewer, cfg.roster, createdAt, searchEdges, format);
    if pullRequests.Failure? {
      return Failure(pullRequests.error);
    }
    var messages: seq<string> := [];
    if |pullRequests.value| > 0 {
      messages := messages + [PrMessage(|pullRequests.value|)];
    }

    var myPullRequests := Activity.GetNewReviewsOrNewChecks(cfg.me, createdAt, searchNodes, parse);
    if myPullRequests.Failure? {
      return Failure(myPullRequests.error);
    }
    if |myPullRequests.value| > 0 {
      messages := messages + [ActivityMessage(|myPullRequests.value|)];
    }
    assert messages == Messages(|pullRequests.value|, |myPullRequests.value|);
    r := Success(messages);
  }

  class Notifier {
    const config: Config
    var firstTime: bool
    /** The bodies of the desktop alerts raised so far, oldest first. */
    var alerts: seq<string>
    /** The number of ticks run so far. */
    ghost var ticks: nat

    ghost predicate Valid()
      reads this
    {
      firstTime <==> ticks == 0
    }

    constructor ()
      ensures Valid() && config == Fixed && ticks == 0 && firstTime && alerts == []
    {
      config := Fixed;
      firstTime := true;
      alerts := [];
      ticks := 0;
    }

    /** One iteration of the poll loop. */
    method Tick(now: int, searchEdges: Team.EdgeSearch, searchNodes: Activity.NodeSearch,
                parse: Parser, format: Team.TimeFormatter) returns (r: Result<seq<string>>)
      requires Valid()
      requires Activity.ResponseWellTyped(searchNodes(Activity.ActivityQuery(config.me)))
      modifies this
      ensures Valid() && ticks == old(ticks) + 1 && !firstTime
      ensures r == TickResult(config, LowerBound(old(firstTime), now), searchEdges, searchNodes, parse, format)
      ensures alerts == old(alerts) + AlertsFor(r)
    {
      var createdAt := now - Minute - Second;
      if firstTime {
        createdAt := now - 24 * Hour;
        firstTime := false;
      }
      ticks := ticks + 1;
      r := Poll(config, createdAt, searchEdges, searchNodes, parse, format);
      if r.Success? && |r.value| > 0 {
        alerts := alerts + [Join(r.value, '\n')];
      }
    }
  }

  // ---------------------------------------------------------------------------
  // Properties of a tick.

  /** Consecutive lower bounds never move back while the clock does not, and
      a later tick run at most a minute and a second after an earlier one
      looks back at least to the earlier one's instant, so nothing after it is
      missed. */
  lemma LowerBoundProgress(firstTime: bool, previous: int, now: int)
    requires previous <= now
    ensures LowerBound(firstTime, previous) <= LowerBound(false, now)
    ensures now <= previous + Minute + Second ==> LowerBound(false, now) <= previous
  {
  }

  /** The alert body carries the messages, PR message first: splitting it at
      newlines gives them back. */
  lemma AlertCarriesMessages(prCount: nat, activityCount: nat)
    requires prCount > 0 || activityCount > 0
    ensures var ms := Messages(prCount, activityCount);
      Split(Join(ms, '\n'), '\n') == ms
  {
    MessagesSpec(prCount, activityCount);
    SplitJoin(Messages(prCount, activityCount), '\n');
  }

  /** The PR message is there iff the merged list is non-empty, with its
      length; the activity message iff the activity outputs are non-empty,
      with the number of pull requests (not of reviews or checks); and a
      failing search yields no messages and no alert. */
  lemma TickMessages(cfg: Config, bound: int, searchEdges: Team.EdgeSearch, searchNodes: Activity.NodeSearch,
                     parse: Parser, format: Team.TimeFormatter)
    requires Activity.ResponseWellTyped(searchNodes(Activity.ActivityQuery(cfg.me)))
    ensures var prs := Team.PullRequestsResult(cfg.organization, cfg.team, cfg.viewer, cfg.roster, bound, searchEdges, format);
      var outs := Activity.ActivityResult(cfg.me, bound, searchNodes, parse);
      var r := TickResult(cfg, bound, searchEdges, searchNodes, parse, format);
      && (prs.Failure? || outs.Failure? <==> r.Failure?)
      && (r.Failure? ==> AlertsFor(r) == [])
      && (r.Success? ==>
            && (forall n: nat :: PrMessage(n) in r.value <==> n == |prs.value| && n > 0)
            && (forall n: nat :: ActivityMessage(n) in r.value <==> n == |outs.value| && n > 0)
            && (|AlertsFor(r)| == 1 <==> |prs.value| > 0 || |outs.value| > 0))
  {
    var prs := Team.PullRequestsResult(cfg.organization, cfg.team, cfg.viewer, cfg.roster, bound, searchEdges, format);
    var outs := Activity.ActivityResult(cfg.me, bound, searchNodes, parse);
    var r := TickResult(cfg, bound, searchEdges, searchNodes, parse, format);
    if r.Success? {
      var ms := r.value;
      forall n: nat
        ensures PrMessage(n) in ms <==> n == |prs.value| && n > 0
      {
        if PrMessage(n) in ms {
          var i :| 0 <= i < |ms| && ms[i] == PrMessage(n);
          if |prs.value| > 0 && i == 0 {
            PrMessageDeterminesCount(n, |prs.value|);
          } else {
            MessagesDiffer(n, |outs.value|);
          }
        }
      }
      forall n: nat
        ensures ActivityMessage(n) in ms <==> n == |outs.value| && n > 0
      {
        if ActivityMessage(n) in ms {
          var i :| 0 <= i < |ms| && ms[i] == ActivityMessage(n);
          if |outs.value| > 0 && i == |ms| - 1 {
            ActivityMessageDeterminesCount(n, |outs.value|);
          } else {
            MessagesDiffer(|prs.value|, n);
          }
        }
      }
    }
  }
}
