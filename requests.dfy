/** The request-level helpers of the transaction service: the chart interval,
    whether active traces are counted, which active transactions match, and the
    trace count of the tab bar. Clock readings, the registry's transactions and
    the collector's store decision are parameters. */
module Requests {
  import opened Wrappers

  const MillisPerSecond: int := 1000

  /** TransactionDataRequest: a time window in epoch milliseconds, a
      transaction type and an optional transaction name. */
  datatype DataRequest = DataRequest(from: int, to: int, transactionType: string, transactionName: Option<string>)

  /** The two fixed chart intervals, configured in seconds and kept in
      milliseconds. */
  datatype Intervals = Intervals(aggregateMillis: int, rollupMillis: int)

  /** An in-flight transaction as the registry exposes it. `id` stands for the
      transaction object itself: the collector's store decision may differ
      between transactions of the same type and name. */
  datatype ActiveTransaction = ActiveTransaction(id: nat, transactionType: string, transactionName: string, partiallyStored: bool)

  /** The service constructor's conversion of the configured intervals. */
  function IntervalsOf(aggregateSeconds: int, rollupSeconds: int): (r: Intervals)
    ensures r.aggregateMillis / MillisPerSecond == aggregateSeconds
    ensures r.rollupMillis / MillisPerSecond == rollupSeconds
    ensures r.aggregateMillis % MillisPerSecond == 0 && r.rollupMillis % MillisPerSecond == 0
  {
    Intervals(aggregateSeconds * MillisPerSecond, rollupSeconds * MillisPerSecond)
  }

  /** getDataPointIntervalMillis: the rollup interval for a window longer than
      the rollup threshold, the fixed aggregate interval otherwise. */
  function DataPointIntervalMillis(request: DataRequest, intervals: Intervals, rollupThresholdMillis: int): (r: int)
    ensures r == intervals.aggregateMillis || r == intervals.rollupMillis
  {
    if request.to - request.from > rollupThresholdMillis then intervals.rollupMillis else intervals.aggregateMillis
  }

  /** When rollups are no finer than aggregates, a wider window never gets a
      finer data point interval. */
  lemma IntervalMonotone(narrow: DataRequest, wide: DataRequest, intervals: Intervals, rollupThresholdMillis: int)
    requires intervals.aggregateMillis <= intervals.rollupMillis
    requires narrow.to - narrow.from <= wide.to - wide.from
    ensures DataPointIntervalMillis(narrow, intervals, rollupThresholdMillis)
      <= DataPointIntervalMillis(wide, intervals, rollupThresholdMillis)
  {
  }

  /** The interval depends only on the window's length: two windows of the same
      length get the same interval, wherever they lie in time. */
  lemma IntervalByLength(a: DataRequest, b: DataRequest, intervals: Intervals, rollupThresholdMillis: int)
    requires a.to - a.from == b.to - b.from
    ensures DataPointIntervalMillis(a, intervals, rollupThresholdMillis)
      == DataPointIntervalMillis(b, intervals, rollupThresholdMillis)
  {
  }

  /** shouldIncludeActiveTraces, with the clock reading as `now`. */
  function ShouldIncludeActiveTraces(request: DataRequest, now: int): (r: bool)
    ensures r ==> request.from < now
    ensures request.to != 0 && request.to <= request.from ==> !r
  {
    (request.to == 0 || request.to > now) && request.from < now
  }

  /** A window that includes active traces at `now` still includes them at any
      later clock reading that the window has not yet passed. */
  lemma ActiveTracesLater(request: DataRequest, now: int, later: int)
    requires ShouldIncludeActiveTraces(request, now)
    requires now <= later && (request.to == 0 || later < request.to)
    ensures ShouldIncludeActiveTraces(request, later)
  {
  }

  /** A window that has ended by `now` never includes active traces again. */
  lemma EndedWindowExcludes(request: DataRequest, now: int, later: int)
    requires request.to != 0 && request.to <= now && now <= later
    ensures !ShouldIncludeActiveTraces(request, later)
  {
  }

  /** matchesActive, with the collector's store decision as `shouldStore`: only
      transactions that would be stored, of the requested type and, when a name
      is requested, of that name. */
  function MatchesActive(transaction: ActiveTransaction, request: DataRequest, shouldStore: ActiveTransaction -> bool): (r: bool)
    ensures r ==> shouldStore(transaction)
    ensures r ==> transaction.transactionType == request.transactionType
    ensures r && request.transactionName.Some? ==> transaction.transactionName == request.transactionName.value
  {
    if !shouldStore(transaction) then false
    else if request.transactionType != transaction.transactionType then false
    else if request.transactionName.Some? && request.transactionName.value != transaction.transactionName then false
    else true
  }

  /** A request without a name matches every active transaction that the same
      request with a name matches. */
  lemma UnnamedMatchesMore(transaction: ActiveTransaction, request: DataRequest, shouldStore: ActiveTransaction -> bool)
    requires MatchesActive(transaction, request, shouldStore)
    ensures MatchesActive(transaction, request.(transactionName := None), shouldStore)
  {
  }

  /** The active transactions that the tab bar adds to the stored trace count:
      matching ones that are not already partially stored. */
  predicate CountsAsActive(transaction: ActiveTransaction, request: DataRequest, shouldStore: ActiveTransaction -> bool)
  {
    MatchesActive(transaction, request, shouldStore) && !transaction.partiallyStored
  }

  /** The number of transactions of `ts` that count as active traces. */
  function ActiveCount(ts: seq<ActiveTransaction>, request: DataRequest, shouldStore: ActiveTransaction -> bool): (r: nat)
    ensures r <= |ts|
    decreases |ts|
  {
    if ts == [] then 0
    else
      var counted := if CountsAsActive(ts[|ts| - 1], request, shouldStore) then 1 else 0;
      ActiveCount(ts[..|ts| - 1], request, shouldStore) + counted
  }

  lemma {:induction false} ActiveCountAppend(a: seq<ActiveTransaction>, b: seq<ActiveTransaction>, request: DataRequest, shouldStore: ActiveTransaction -> bool)
    ensures ActiveCount(a + b, request, shouldStore) == ActiveCount(a, request, shouldStore) + ActiveCount(b, request, shouldStore)
    decreases |b|
  {
    if b != [] {
      assert (a + b)[..|a + b| - 1] == a + b[..|b| - 1];
      ActiveCountAppend(a, b[..|b| - 1], request, shouldStore);
    } else {
      assert a + b == a;
    }
  }

  /** Removing a transaction that does not count, such as a partially stored
      one, leaves the count unchanged; removing one that counts lowers it by
      one. */
  lemma ActiveCountRemove(ts: seq<ActiveTransaction>, i: nat, request: DataRequest, shouldStore: ActiveTransaction -> bool)
    requires i < |ts|
    ensures ActiveCount(ts, request, shouldStore)
      == ActiveCount(ts[..i] + ts[i + 1..], request, shouldStore)
      + (if CountsAsActive(ts[i], request, shouldStore) then 1 else 0)
  {
    assert ts == ts[..i] + [ts[i]] + ts[i + 1..];
    ActiveCountAppend(ts[..i] + [ts[i]], ts[i + 1..], request, shouldStore);
    ActiveCountAppend(ts[..i], [ts[i]], request, shouldStore);
    ActiveCountAppend(ts[..i], ts[i + 1..], request, shouldStore);
    assert [ts[i]][..0] == [];
  }

  /** The transactions of the requested type and, when a name is requested,
      of that name, independently of the store decision. */
  function OfRequest(ts: seq<ActiveTransaction>, request: DataRequest): seq<ActiveTransaction>
    decreases |ts|
  {
    if ts == [] then []
    else
      var t := ts[|ts| - 1];
      var selected := t.transactionType == request.transactionType
        && (request.transactionName.None? || request.transactionName.value == t.transactionName);
      OfRequest(ts[..|ts| - 1], request) + (if selected then [t] else [])
  }

  /** Only transactions of the requested type and name are ever counted:
      dropping all others leaves the count unchanged, so the count is at most
      their number. */
  lemma {:induction false} ActiveCountOfRequest(ts: seq<ActiveTransaction>, request: DataRequest, shouldStore: ActiveTransaction -> bool)
    ensures ActiveCount(ts, request, shouldStore) == ActiveCount(OfRequest(ts, request), request, shouldStore)
    ensures ActiveCount(ts, request, shouldStore) <= |OfRequest(ts, request)|
    decreases |ts|
  {
    if ts != [] {
      var init, t := ts[..|ts| - 1], ts[|ts| - 1];
      ActiveCountOfRequest(init, request, shouldStore);
      var tail := OfRequest(ts, request)[|OfRequest(init, request)|..];
      assert OfRequest(ts, request) == OfRequest(init, request) + tail;
      ActiveCountAppend(OfRequest(init, request), tail, request, shouldStore);
      if tail != [] {
        assert tail[..0] == [];
      }
    }
  }

  /** The store decision is per transaction: of two running transactions of
      the same type and name, only the one the collector would store counts. */
  lemma SameNameDifferentDecision()
    ensures ActiveCount(
      [ActiveTransaction(1, "Web", "/a", false), ActiveTransaction(2, "Web", "/a", false)],
      DataRequest(0, 0, "Web", Some("/a")),
      (t: ActiveTransaction) => t.id == 1) == 1
  {
    var ts := [ActiveTransaction(1, "Web", "/a", false), ActiveTransaction(2, "Web", "/a", false)];
    assert ts[..1][..0] == [];
  }

  /** The trace count of getTabBarData: the stored count, plus, when the window
      reaches the present, one for every active transaction that counts. */
  function TraceCountOf(storedCount: int, active: seq<ActiveTransaction>, request: DataRequest, now: int, shouldStore: ActiveTransaction -> bool): int
  {
    if ShouldIncludeActiveTraces(request, now) then storedCount + ActiveCount(active, request, shouldStore) else storedCount
  }

  /** The trace count loop of getTabBarData. */
  method TraceCount(storedCount: int, active: seq<ActiveTransaction>, request: DataRequest, now: int, shouldStore: ActiveTransaction -> bool)
    returns (traceCount: int)
    ensures traceCount == TraceCountOf(storedCount, active, request, now, shouldStore)
  {
    traceCount := storedCount;
    if ShouldIncludeActiveTraces(request, now) {
      for i := 0 to |active|
        invariant traceCount == storedCount + ActiveCount(active[..i], request, shouldStore)
      {
        assert active[..i + 1][..i] == active[..i];
        if MatchesActive(active[i], request, shouldStore) && !active[i].partiallyStored {
          traceCount := traceCount + 1;
        }
      }
      assert active[..|active|] == active;
    }
  }

  /** The tab bar's count never drops below the stored count, exceeds it by at
      most the number of active transactions, and equals it when the window
      does not reach the present. */
  lemma TraceCountBounds(storedCount: int, active: seq<ActiveTransaction>, request: DataRequest, now: int, shouldStore: ActiveTransaction -> bool)
    ensures storedCount <= TraceCountOf(storedCount, active, request, now, shouldStore) <= storedCount + |active|
    ensures !ShouldIncludeActiveTraces(request, now) ==> TraceCountOf(storedCount, active, request, now, shouldStore) == storedCount
  {
  }
}
