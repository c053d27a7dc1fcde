/** The batch driver of the end-to-end run: submitted routes whose source
    transaction went through are collected in `activeRoutes`, and one
    settlement pass walks that list from its last index down to 0, asking the
    bridge for each route's status and splicing out every route that reached
    a terminal status. The bridge SDK, the RPC reads and the pauses are
    abstract inputs. */
module Batch {
  import opened Utils
  import Seqs

  /** The parameters of one route request; only carried along. */
  datatype RouteParams = RouteParams(
    routeDescription: string,
    toAddress: string,
    fromChain: string,
    fromToken: string,
    fromAmount: string,
    toChain: string,
    toToken: string,
    slippage: nat)

  /** One submitted route: whether its source transaction went through, its
      transaction id, its request, the balances snapshotted before submission,
      the balances read after settlement, and the reconciliation verdict. */
  datatype RouteLog = RouteLog(
    txOk: bool,
    txReceiptId: string,
    params: RouteParams,
    srcTokenBalancePre: nat,
    dstTokenBalancePre: nat,
    srcTokenBalancePost: Option<nat>,
    dstTokenBalancePost: Option<nat>,
    routeSwapsSuccess: Option<bool>)

  /** What the bridge's status endpoint does for one transaction id: answer
      with a status string, or throw. */
  datatype StatusQuery = Answered(status: string) | Threw

  /** The balances read back after a route settled. */
  datatype PostBalances = PostBalances(src: nat, dst: nat)

  /** What visiting one active route led to. */
  datatype Outcome =
    | Delivered(settled: RouteLog)
    | Failed(status: string)
    | Pending(status: string)
    | QueryThrew

  /** One status query of a settlement pass: the route asked about and what
      came of it. */
  datatype Visit = Visit(entry: RouteLog, outcome: Outcome)

  const DestinationExecuted: string := "destination_executed"

  /** The statuses that end a route as a failure. */
  const FailureStatuses: set<string> := {"error", "gas_unpaid", "gas_paid_not_enough_gas"}

  /** The statuses that end a route, one way or the other. */
  const TerminalStatuses: set<string> := {DestinationExecuted} + FailureStatuses

  /** Reconciliation: the swap went through when the source balance strictly
      fell and the destination balance strictly rose. */
  predicate RouteSwapsSuccess(srcPre: int, srcPost: int, dstPre: int, dstPost: int)
  {
    srcPre > srcPost && dstPre < dstPost
  }

  /** The script's chain of status comparisons against the status sets. */
  lemma StatusSets(status: string)
    ensures (status == "error" || status == "gas_unpaid" || status == "gas_paid_not_enough_gas")
      <==> status in FailureStatuses
    ensures status in TerminalStatuses <==> status == DestinationExecuted || status in FailureStatuses
    ensures DestinationExecuted !in FailureStatuses
  {
  }

  /** Whether the pass removes `log`: its status query answered with a
      terminal status. */
  predicate Removes(getStatus: string -> StatusQuery, log: RouteLog)
  {
    getStatus(log.txReceiptId).Answered? && getStatus(log.txReceiptId).status in TerminalStatuses
  }

  function StillActive(getStatus: string -> StatusQuery): RouteLog -> bool
  {
    log => !Removes(getStatus, log)
  }

  /** The routes a pass keeps: those whose status is not terminal, in order. */
  function Remaining(routes: seq<RouteLog>, getStatus: string -> StatusQuery): seq<RouteLog>
  {
    Seqs.Filter(routes, StillActive(getStatus))
  }

  /** The routes a pass removes, in order. */
  function Settled(routes: seq<RouteLog>, getStatus: string -> StatusQuery): seq<RouteLog>
  {
    Seqs.Rejected(routes, StillActive(getStatus))
  }

  /** The active list once a pass has settled every index from `m` up: the
      unvisited prefix untouched, then the kept routes of the visited suffix. */
  function AfterPass(routes: seq<RouteLog>, m: nat, getStatus: string -> StatusQuery): seq<RouteLog>
    requires m <= |routes|
  {
    routes[..m] + Remaining(routes[m..], getStatus)
  }

  /** The route logs a submission round adds to the active set. */
  function Admitted(logs: seq<RouteLog>): seq<RouteLog>
  {
    Seqs.Filter(logs, (log: RouteLog) => log.txOk)
  }

  /** What visiting `log` yields: a delivered route gets its post balances and
      its reconciliation verdict; a failed one keeps its failure status; any
      other answer leaves it pending; a throwing query ends the pass. */
  function Settle(log: RouteLog, getStatus: string -> StatusQuery,
                  getPostAccountValues: RouteLog -> PostBalances): (o: Outcome)
    ensures (o.Delivered? || o.Failed?) <==> Removes(getStatus, log)
    ensures o.QueryThrew? <==> getStatus(log.txReceiptId).Threw?
    ensures (o.Failed? || o.Pending?) ==> getStatus(log.txReceiptId) == Answered(o.status)
    ensures o.Delivered? <==> getStatus(log.txReceiptId) == Answered(DestinationExecuted)
    ensures o.Delivered? ==>
      var post := getPostAccountValues(log);
      o.settled == log.(srcTokenBalancePost := Some(post.src),
                        dstTokenBalancePost := Some(post.dst),
                        routeSwapsSuccess := Some(RouteSwapsSuccess(
                          log.srcTokenBalancePre, post.src, log.dstTokenBalancePre, post.dst)))
  {
    match getStatus(log.txReceiptId)
    case Threw => QueryThrew
    case Answered(status) =>
      if status == DestinationExecuted then
        var post := getPostAccountValues(log);
        var withPost := log.(srcTokenBalancePost := Some(post.src),
                             dstTokenBalancePost := Some(post.dst));
        Delivered(withPost.(routeSwapsSuccess := Some(RouteSwapsSuccess(
          withPost.srcTokenBalancePre, withPost.srcTokenBalancePost.value,
          withPost.dstTokenBalancePre, withPost.dstTokenBalancePost.value))))
      else if status in FailureStatuses then Failed(status)
      else Pending(status)
  }

  /** A route whose destination leg executed is removed whatever its
      reconciliation verdict; the verdict is true exactly when the source
      balance strictly fell and the destination balance strictly rose. */
  lemma DeliveredVerdict(log: RouteLog, getStatus: string -> StatusQuery,
                         getPostAccountValues: RouteLog -> PostBalances)
    requires getStatus(log.txReceiptId) == Answered(DestinationExecuted)
    ensures Removes(getStatus, log)
    ensures var o := Settle(log, getStatus, getPostAccountValues);
      var post := getPostAccountValues(log);
      o.Delivered? &&
      (o.settled.routeSwapsSuccess == Some(true) <==>
        log.srcTokenBalancePre > post.src && log.dstTokenBalancePre < post.dst)
  {
  }

  /** Only routes whose submission succeeded are admitted. */
  lemma AdmittedOnlyOk(logs: seq<RouteLog>, log: RouteLog)
    ensures log in Admitted(logs) <==> log in logs && log.txOk
  {
    Seqs.FilterMembership(logs, (log: RouteLog) => log.txOk, log);
  }

  /** A route is kept by a pass exactly when it was active and its status is
      not terminal; in particular a delivered or failed route is gone and a
      pending one is still there, unchanged. */
  lemma RemainingMembership(routes: seq<RouteLog>, getStatus: string -> StatusQuery, log: RouteLog)
    ensures log in Remaining(routes, getStatus) <==> log in routes && !Removes(getStatus, log)
  {
    Seqs.FilterMembership(routes, StillActive(getStatus), log);
  }

  /** The kept routes keep their relative order. */
  lemma RemainingAppend(a: seq<RouteLog>, b: seq<RouteLog>, getStatus: string -> StatusQuery)
    ensures Remaining(a + b, getStatus) == Remaining(a, getStatus) + Remaining(b, getStatus)
  {
    Seqs.FilterAppend(a, b, StillActive(getStatus));
  }

  /** A pass shrinks the active set by exactly one per terminal route: the
      kept and the removed routes together are the routes the pass began with. */
  lemma RemainingCount(routes: seq<RouteLog>, getStatus: string -> StatusQuery)
    ensures |Remaining(routes, getStatus)| == |routes| - |Settled(routes, getStatus)|
    ensures multiset(Remaining(routes, getStatus)) + multiset(Settled(routes, getStatus)) == multiset(routes)
    ensures forall i :: 0 <= i < |Settled(routes, getStatus)| ==> Removes(getStatus, Settled(routes, getStatus)[i])
  {
    Seqs.FilterSplit(routes, StillActive(getStatus));
  }

  /** Overwriting the entry at `i` and then splicing it out is the same as
      splicing it out. */
  lemma SpliceAfterUpdate<T>(s: seq<T>, i: nat, x: T)
    requires i < |s|
    ensures s[i := x][..i] + s[i := x][i + 1..] == s[..i] + s[i + 1..]
  {
  }

  /** One step of the backwards walk: with everything above `index` already
      settled, the entry at `index` is still the original one, and keeping or
      splicing it out settles everything from `index` up. */
  lemma PassStep(start: seq<RouteLog>, index: nat, getStatus: string -> StatusQuery)
    requires index < |start|
    ensures var before := AfterPass(start, index + 1, getStatus);
      index < |before| && before[index] == start[index] &&
      AfterPass(start, index, getStatus) ==
        if Removes(getStatus, start[index]) then before[..index] + before[index + 1..] else before
  {
  }

  /** `visits` are the first `|visits|` queries of a descending walk over
      `routes`: the k-th is about the route at index `|routes| - 1 - k`, its
      outcome is what `Settle` gives for that route, and only the last query
      may have thrown. */
  ghost predicate VisitedFromTop(routes: seq<RouteLog>, visits: seq<Visit>,
                                 getStatus: string -> StatusQuery,
                                 getPostAccountValues: RouteLog -> PostBalances)
  {
    |visits| <= |routes| &&
    forall k :: 0 <= k < |visits| ==>
      visits[k].entry == routes[|routes| - 1 - k] &&
      visits[k].outcome == Settle(visits[k].entry, getStatus, getPostAccountValues) &&
      (k < |visits| - 1 ==> !visits[k].outcome.QueryThrew?)
  }

  /** Querying the next lower index extends a descending walk. */
  lemma VisitNext(routes: seq<RouteLog>, visits: seq<Visit>, getStatus: string -> StatusQuery,
                  getPostAccountValues: RouteLog -> PostBalances)
    requires VisitedFromTop(routes, visits, getStatus, getPostAccountValues)
    requires |visits| < |routes|
    requires visits != [] ==> !visits[|visits| - 1].outcome.QueryThrew?
    ensures var entry := routes[|routes| - 1 - |visits|];
      VisitedFromTop(routes, visits + [Visit(entry, Settle(entry, getStatus, getPostAccountValues))],
                     getStatus, getPostAccountValues)
  {
  }

  /** A pass that settled every index from `m` up leaves the list shorter by
      exactly the number of terminal routes among them, and never longer. */
  lemma PassLength(start: seq<RouteLog>, m: nat, getStatus: string -> StatusQuery)
    requires m <= |start|
    ensures |AfterPass(start, m, getStatus)| == |start| - |Settled(start[m..], getStatus)|
    ensures |AfterPass(start, m, getStatus)| <= |start|
  {
    RemainingCount(start[m..], getStatus);
  }

  /** What a pass leaves behind holds only routes it started with, so only
      routes whose submission went through. */
  lemma PassKeepsSubmitted(start: seq<RouteLog>, m: nat, getStatus: string -> StatusQuery)
    requires m <= |start|
    requires forall i :: 0 <= i < |start| ==> start[i].txOk
    ensures var after := AfterPass(start, m, getStatus);
      forall i :: 0 <= i < |after| ==> after[i].txOk
  {
    var after := AfterPass(start, m, getStatus);
    forall i | 0 <= i < |after|
      ensures after[i].txOk
    {
      if i >= m {
        RemainingMembership(start[m..], getStatus, after[i]);
      }
    }
  }

  /** The batch's mutable state: the routes awaiting settlement. */
  class Batch {
    var activeRoutes: seq<RouteLog>

    /** Only routes whose source transaction went through are ever active. */
    ghost predicate Valid()
      reads this
    {
      forall i :: 0 <= i < |activeRoutes| ==> activeRoutes[i].txOk
    }

    constructor ()
      ensures Valid() && activeRoutes == []
    {
      activeRoutes := [];
    }

    /** Submits every request in order; `execute(k, params)` is the route log
        the executor returns for the `k`-th request. Routes whose submission
        went through are appended. */
    method SubmitAll(paramsArray: seq<RouteParams>, execute: (nat, RouteParams) -> RouteLog)
      modifies this
      ensures old(Valid()) ==> Valid()
      ensures activeRoutes == old(activeRoutes) +
        Admitted(seq(|paramsArray|, k requires 0 <= k < |paramsArray| => execute(k, paramsArray[k])))
    {
      ghost var logs := seq(|paramsArray|, k requires 0 <= k < |paramsArray| => execute(k, paramsArray[k]));
      var i := 0;
      while i < |paramsArray|
        invariant 0 <= i <= |paramsArray|
        invariant activeRoutes == old(activeRoutes) + Admitted(logs[..i])
      {
        var activeRoute := execute(i, paramsArray[i]);
        if activeRoute.txOk == true {
          activeRoutes := activeRoutes + [activeRoute];
        }
        Seqs.FilterAppend(logs[..i], [activeRoute], (log: RouteLog) => log.txOk);
        assert logs[..i + 1] == logs[..i] + [activeRoute];
        i := i + 1;
      }
      assert logs[..i] == logs;
    }

    /** Visits the route at `index`: asks for its status and, on a terminal
        one, splices it out; a delivered route is first overwritten in place
        with its post balances, and its reconciliation verdict is computed. */
    method VisitAt(index: nat, getStatus: string -> StatusQuery,
                   getPostAccountValues: RouteLog -> PostBalances)
      returns (outcome: Outcome)
      requires index < |activeRoutes|
      modifies this
      ensures outcome == Settle(old(activeRoutes)[index], getStatus, getPostAccountValues)
      ensures activeRoutes ==
        if Removes(getStatus, old(activeRoutes)[index])
        then old(activeRoutes)[..index] + old(activeRoutes)[index + 1..]
        else old(activeRoutes)
    {
      var routeLog := activeRoutes[index];
      var response := getStatus(routeLog.txReceiptId);
      if response.Answered? {
        StatusSets(response.status);
      }
      if response.Threw? {
        outcome := QueryThrew;
      } else if response.status == DestinationExecuted {
        var post := getPostAccountValues(routeLog);
        SpliceAfterUpdate(activeRoutes, index, routeLog.(srcTokenBalancePost := Some(post.src),
                                                        dstTokenBalancePost := Some(post.dst)));
        activeRoutes := activeRoutes[index := routeLog.(srcTokenBalancePost := Some(post.src),
                                                        dstTokenBalancePost := Some(post.dst))];
        var swapsSuccess := RouteSwapsSuccess(
          routeLog.srcTokenBalancePre, post.src, routeLog.dstTokenBalancePre, post.dst);
        var settled := activeRoutes[index].(routeSwapsSuccess := Some(swapsSuccess));
        activeRoutes := activeRoutes[..index] + activeRoutes[index + 1..];
        outcome := Delivered(settled);
      } else if response.status == "error" || response.status == "gas_unpaid" ||
                response.status == "gas_paid_not_enough_gas" {
        activeRoutes := activeRoutes[..index] + activeRoutes[index + 1..];
        outcome := Failed(response.status);
      } else {
        outcome := Pending(response.status);
      }
    }

    /** One settlement pass, walking `activeRoutes` from its last index down
        to 0. A terminal route is spliced out at its index; a delivered one is
        first overwritten with its post balances and reconciliation verdict.
        A throwing status query ends the pass where it stands. `visits`
        records each route queried and its outcome, in the order queried. */
    method SettlementPass(getStatus: string -> StatusQuery,
                          getPostAccountValues: RouteLog -> PostBalances)
      returns (visits: seq<Visit>)
      modifies this
      ensures old(Valid()) ==> Valid()
      ensures VisitedFromTop(old(activeRoutes), visits, getStatus, getPostAccountValues)
      ensures |visits| < |old(activeRoutes)| ==> visits != [] && visits[|visits| - 1].outcome.QueryThrew?
      ensures activeRoutes == AfterPass(old(activeRoutes), |old(activeRoutes)| - |visits|, getStatus)
    {
      ghost var start := activeRoutes;
      visits := [];
      var index := |activeRoutes|;
      var threw := false;
      while index != 0 && !threw
        invariant 0 <= index <= |start|
        invariant |visits| == |start| - index
        invariant VisitedFromTop(start, visits, getStatus, getPostAccountValues)
        invariant threw <==> visits != [] && visits[|visits| - 1].outcome.QueryThrew?
        invariant activeRoutes == AfterPass(start, index, getStatus)
        decreases index
      {
        index := index - 1;
        PassStep(start, index, getStatus);
        var routeLog := activeRoutes[index];
        var outcome := VisitAt(index, getStatus, getPostAccountValues);
        VisitNext(start, visits, getStatus, getPostAccountValues);
        visits := visits + [Visit(routeLog, outcome)];
        threw := outcome.QueryThrew?;
      }
      assert index == |start| - |visits| && start == old(activeRoutes);
      if forall i :: 0 <= i < |start| ==> start[i].txOk {
        PassKeepsSubmitted(start, index, getStatus);
      }
    }
  }
}
