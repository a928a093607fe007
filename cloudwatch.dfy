/** aws/awscloudwatch/client.go: the log-stream filter of `FetchLogStreams`,
    the token-driven pagination loop of `FetchCloudwatchLogs` and the metric
    accumulation of `FetchCpuAndMemoryUsage`. The SDK calls are parameters
    (a function from the request to the service's answer, or the scripted
    answers of successive requests); the clock is the parameter `now`, in
    Unix seconds. */
module CloudWatch {
  import opened Wrappers
  import opened Text

  // ---------------------------------------------------------------- streams

  /** A stream as the service describes it; `None` is a nil pointer. */
  datatype LogStream = LogStream(logStreamName: Option<string>, lastEventTimestamp: Option<int>)

  /** The `DescribeLogStreams` request: the group, ordered by last event
      time, newest first, at most ten streams. */
  datatype DescribeInput = DescribeInput(logGroupName: string, orderBy: string, limit: int, descending: bool)

  function DescribeRequest(logGroupName: string): DescribeInput {
    DescribeInput(logGroupName, "LastEventTime", 10, true)
  }

  /** The cutoff in milliseconds: thirty minutes before `now`, in whole seconds, times 1000. */
  function Cutoff(now: int): int {
    (now - 30 * 60) * 1000
  }

  /** Whether the filter can look at a stream: it dereferences the last
      event time of every stream, and the name of a recent one when both a
      container name and a task ARN are given; a nil pointer there panics. */
  predicate Readable(s: LogStream, cutoff: int, containerName: Option<string>, taskArn: Option<string>) {
    s.lastEventTimestamp.Some? &&
    (s.lastEventTimestamp.value > cutoff && containerName.Some? && taskArn.Some? ==> s.logStreamName.Some?)
  }

  /** Whether a stream is kept: written to after the cutoff and, when both a
      container name and a task ARN are given, named after both. */
  predicate Kept(s: LogStream, cutoff: int, containerName: Option<string>, taskArn: Option<string>) {
    s.lastEventTimestamp.Some? && s.lastEventTimestamp.value > cutoff &&
    (containerName.Some? && taskArn.Some? ==>
      s.logStreamName.Some? &&
      Contains(s.logStreamName.value, containerName.value) && Contains(s.logStreamName.value, taskArn.value))
  }

  /** The kept streams, in the order given. */
  function Filtered(streams: seq<LogStream>, cutoff: int, containerName: Option<string>, taskArn: Option<string>): (r: seq<LogStream>)
    ensures |r| <= |streams|
  {
    if streams == [] then []
    else
      var init := Filtered(streams[..|streams| - 1], cutoff, containerName, taskArn);
      var last := streams[|streams| - 1];
      if Kept(last, cutoff, containerName, taskArn) then init + [last] else init
  }

  /** A stream is in the result exactly when it is in the input and kept. */
  lemma {:induction false} FilteredMembers(streams: seq<LogStream>, cutoff: int, containerName: Option<string>, taskArn: Option<string>)
    ensures forall s :: s in Filtered(streams, cutoff, containerName, taskArn) <==> s in streams && Kept(s, cutoff, containerName, taskArn)
  {
    if streams != [] {
      var n := |streams| - 1;
      FilteredMembers(streams[..n], cutoff, containerName, taskArn);
      assert streams == streams[..n] + [streams[n]];
      assert forall s :: s in streams <==> s in streams[..n] || s == streams[n];
    }
  }

  /** A kept stream appears as often as in the input, a dropped one not at all. */
  lemma {:induction false} FilteredCounts(streams: seq<LogStream>, cutoff: int, containerName: Option<string>, taskArn: Option<string>, s: LogStream)
    ensures multiset(Filtered(streams, cutoff, containerName, taskArn))[s] ==
      if Kept(s, cutoff, containerName, taskArn) then multiset(streams)[s] else 0
  {
    if streams != [] {
      var n := |streams| - 1;
      FilteredCounts(streams[..n], cutoff, containerName, taskArn, s);
      assert streams == streams[..n] + [streams[n]];
      assert multiset(streams) == multiset(streams[..n]) + multiset{streams[n]};
    }
  }

  /** One more stream is appended exactly when it is kept. */
  lemma FilteredStep(streams: seq<LogStream>, i: nat, cutoff: int, containerName: Option<string>, taskArn: Option<string>)
    requires i < |streams|
    ensures Filtered(streams[..i + 1], cutoff, containerName, taskArn) ==
      if Kept(streams[i], cutoff, containerName, taskArn) then Filtered(streams[..i], cutoff, containerName, taskArn) + [streams[i]]
      else Filtered(streams[..i], cutoff, containerName, taskArn)
  {
    assert streams[..i + 1][..i] == streams[..i];
  }

  /** The filter keeps the order of the streams it keeps. */
  lemma {:induction false} FilteredKeepsOrder(streams: seq<LogStream>, cutoff: int, containerName: Option<string>, taskArn: Option<string>)
    ensures IsSubsequence(Filtered(streams, cutoff, containerName, taskArn), streams)
  {
    if streams != [] {
      var n := |streams| - 1;
      var init := Filtered(streams[..n], cutoff, containerName, taskArn);
      FilteredKeepsOrder(streams[..n], cutoff, containerName, taskArn);
      SubsequenceSnoc(init, streams[..n], streams[n]);
      assert streams[..n] + [streams[n]] == streams;
      assert Filtered(streams, cutoff, containerName, taskArn) == init || Filtered(streams, cutoff, containerName, taskArn) == init + [streams[n]];
    } else {
      var none: seq<nat> := [];
      assert Picks(none, Filtered(streams, cutoff, containerName, taskArn), streams);
    }
  }

  /** `sub` is `s` with some elements left out. */
  ghost predicate IsSubsequence<T>(sub: seq<T>, s: seq<T>) {
    exists picks: seq<nat> :: Picks(picks, sub, s)
  }

  /** `picks` are strictly increasing indices of `s` that spell `sub`. */
  ghost predicate Picks<T>(picks: seq<nat>, sub: seq<T>, s: seq<T>) {
    |picks| == |sub| &&
    (forall k :: 0 <= k < |picks| ==> picks[k] < |s| && s[picks[k]] == sub[k]) &&
    (forall k, l :: 0 <= k < l < |picks| ==> picks[k] < picks[l])
  }

  lemma SubsequenceSnoc<T>(sub: seq<T>, s: seq<T>, x: T)
    requires IsSubsequence(sub, s)
    ensures IsSubsequence(sub, s + [x]) && IsSubsequence(sub + [x], s + [x])
  {
    var picks: seq<nat> :| Picks(picks, sub, s);
    assert Picks(picks, sub, s + [x]);
    assert Picks(picks + [|s|], sub + [x], s + [x]);
  }

  /** What `FetchLogStreams` ends with: the kept streams, the describe
      error, or a panic on a nil pointer the filter dereferences. */
  datatype StreamsOutcome = Streams(streams: seq<LogStream>) | DescribeFailed(error: string) | NilDereference

  /** `FetchLogStreams`: a describe error is returned with no streams; a
      stream the filter cannot read panics; otherwise the kept streams. */
  method FetchLogStreams(logGroupName: string, containerName: Option<string>, taskArn: Option<string>, now: int,
                         describe: DescribeInput -> Result<seq<LogStream>, string>)
    returns (result: StreamsOutcome)
    ensures describe(DescribeRequest(logGroupName)).Failure? ==>
      result == DescribeFailed(describe(DescribeRequest(logGroupName)).error)
    ensures describe(DescribeRequest(logGroupName)).Success? ==>
      (result.NilDereference? <==>
        exists i :: 0 <= i < |describe(DescribeRequest(logGroupName)).value| &&
          !Readable(describe(DescribeRequest(logGroupName)).value[i], Cutoff(now), containerName, taskArn))
    ensures describe(DescribeRequest(logGroupName)).Success? && !result.NilDereference? ==>
      result == Streams(Filtered(describe(DescribeRequest(logGroupName)).value, Cutoff(now), containerName, taskArn))
  {
    var logStreams := describe(DescribeRequest(logGroupName));
    if logStreams.Failure? {
      return DescribeFailed(logStreams.error);
    }
    result := FilterStreams(logStreams.value, containerName, taskArn, now);
  }

  /** The loop of `FetchLogStreams` over the described streams: a stream it
      cannot read panics; otherwise the result is the kept streams. */
  method FilterStreams(streams: seq<LogStream>, containerName: Option<string>, taskArn: Option<string>, now: int)
    returns (result: StreamsOutcome)
    ensures result.NilDereference? <==>
      exists i :: 0 <= i < |streams| && !Readable(streams[i], Cutoff(now), containerName, taskArn)
    ensures !result.NilDereference? ==> result == Streams(Filtered(streams, Cutoff(now), containerName, taskArn))
  {
    var thirtyMinutesAgo := now - 30 * 60;
    var events: seq<LogStream> := [];
    var i := 0;
    while i < |streams|
      invariant 0 <= i <= |streams|
      invariant forall k :: 0 <= k < i ==> Readable(streams[k], Cutoff(now), containerName, taskArn)
      invariant events == Filtered(streams[..i], Cutoff(now), containerName, taskArn)
    {
      FilteredStep(streams, i, Cutoff(now), containerName, taskArn);
      var item := streams[i];
      if item.lastEventTimestamp.None? {
        assert !Readable(streams[i], Cutoff(now), containerName, taskArn);
        return NilDereference;
      }
      if item.lastEventTimestamp.value > thirtyMinutesAgo * 1000 {
        if containerName.Some? && taskArn.Some? {
          if item.logStreamName.None? {
            assert !Readable(streams[i], Cutoff(now), containerName, taskArn);
            return NilDereference;
          }
          if Contains(item.logStreamName.value, containerName.value) && Contains(item.logStreamName.value, taskArn.value) {
            events := events + [item];
          }
        } else {
          events := events + [item];
        }
      }
      i := i + 1;
    }
    assert streams[..i] == streams;
    return Streams(events);
  }

  // ------------------------------------------------------------- pagination

  datatype LogEvent = LogEvent(timestamp: int, message: string)

  /** The `GetLogEvents` request as it stands at one turn of the loop. */
  datatype GetLogEventsInput = GetLogEventsInput(
    logGroupName: string, logStreamName: string, startFromHead: bool, startTime: int, nextToken: Option<string>)

  /** One page of events and the token for the next. */
  datatype Page = Page(events: seq<LogEvent>, nextForwardToken: string)

  /** The request sent with a given token: without one, from the tail and
      with no token; with one, that token and from the head. */
  function RequestFor(base: GetLogEventsInput, token: Option<string>): (r: GetLogEventsInput)
    ensures token.Some? ==> r.nextToken == token && r.startFromHead
    ensures r.logGroupName == base.logGroupName && r.logStreamName == base.logStreamName && r.startTime == base.startTime
  {
    if token.Some? then base.(nextToken := token, startFromHead := true) else base
  }

  /** The outcome of the loop: the pages appended, the token, the request
      error if any, and the requests sent. `stopped` is false when the
      scripted answers ran out before the loop ended. */
  datatype Fetch = Fetch(outputList: seq<seq<LogEvent>>, nextToken: Option<string>, err: Option<string>,
                         requests: seq<GetLogEventsInput>, stopped: bool)

  /** The loop run against the answers of successive requests. It stops on
      an error, or on a page whose forward token is the one just sent; that
      page is not appended. */
  function Pages(base: GetLogEventsInput, answers: seq<Result<Page, string>>, token: Option<string>): (f: Fetch)
    ensures |f.requests| == |answers| || (f.stopped && |f.requests| <= |answers|)
    ensures f.stopped ==> |f.outputList| + 1 == |f.requests|
    ensures !f.stopped ==> |f.outputList| == |f.requests| && f.err.None?
    ensures token.Some? ==> f.nextToken.Some?
    decreases |answers|
  {
    if answers == [] then Fetch([], token, None, [], false)
    else
      var request := RequestFor(base, token);
      match answers[0]
      case Failure(e) => Fetch([], token, Some(e), [request], true)
      case Success(page) =>
        if token.Some? && page.nextForwardToken == token.value then Fetch([], token, None, [request], true)
        else
          var rest := Pages(base, answers[1..], Some(page.nextForwardToken));
          rest.(outputList := [page.events] + rest.outputList, requests := [request] + rest.requests)
  }

  /** Every page appended is the events of the answer to the request of
      the same turn, and every request after the first carries the token
      of the page before it, read from the head. */
  lemma {:induction false} PagesContents(base: GetLogEventsInput, answers: seq<Result<Page, string>>, token: Option<string>)
    ensures var f := Pages(base, answers, token);
      (forall k :: 0 <= k < |f.outputList| ==> answers[k].Success? && f.outputList[k] == answers[k].value.events) &&
      (forall k :: 1 <= k < |f.requests| ==>
        answers[k - 1].Success? && f.requests[k] == RequestFor(base, Some(answers[k - 1].value.nextForwardToken)))
    decreases |answers|
  {
    if answers != [] && answers[0].Success? {
      var page := answers[0].value;
      if !(token.Some? && page.nextForwardToken == token.value) {
        PagesContents(base, answers[1..], Some(page.nextForwardToken));
      }
    }
  }

  /** After the first request, every request carries a token and reads from the head. */
  lemma RequestsAfterFirstCarryToken(base: GetLogEventsInput, answers: seq<Result<Page, string>>, token: Option<string>)
    ensures var f := Pages(base, answers, token);
      forall k :: 1 <= k < |f.requests| ==> f.requests[k].nextToken.Some? && f.requests[k].startFromHead
  {
    PagesContents(base, answers, token);
  }

  /** Prepends the pages and requests of earlier turns. */
  function After(outputList: seq<seq<LogEvent>>, requests: seq<GetLogEventsInput>, f: Fetch): Fetch {
    f.(outputList := outputList + f.outputList, requests := requests + f.requests)
  }

  lemma AfterAfter(o1: seq<seq<LogEvent>>, r1: seq<GetLogEventsInput>, o2: seq<seq<LogEvent>>, r2: seq<GetLogEventsInput>, f: Fetch)
    ensures After(o1, r1, After(o2, r2, f)) == After(o1 + o2, r1 + r2, f)
  {
    assert o1 + (o2 + f.outputList) == o1 + o2 + f.outputList;
    assert r1 + (r2 + f.requests) == r1 + r2 + f.requests;
  }

  /** One turn of the loop that appends its page. */
  lemma PagesTurn(base: GetLogEventsInput, answers: seq<Result<Page, string>>, i: nat, token: Option<string>)
    requires i < |answers| && answers[i].Success?
    requires !(token.Some? && answers[i].value.nextForwardToken == token.value)
    ensures Pages(base, answers[i..], token) ==
      After([answers[i].value.events], [RequestFor(base, token)], Pages(base, answers[i + 1..], Some(answers[i].value.nextForwardToken)))
  {
    assert answers[i..][0] == answers[i] && answers[i..][1..] == answers[i + 1..];
  }

  /** The turn that ends the loop. */
  lemma PagesLast(base: GetLogEventsInput, answers: seq<Result<Page, string>>, i: nat, token: Option<string>)
    requires i < |answers|
    requires answers[i].Failure? || (token.Some? && answers[i].value.nextForwardToken == token.value)
    ensures Pages(base, answers[i..], token) ==
      Fetch([], token, if answers[i].Failure? then Some(answers[i].error) else None, [RequestFor(base, token)], true)
  {
    assert answers[i..][0] == answers[i];
  }

  /** The loop's invariant is kept by a turn that appends its page. */
  lemma LoopTurns(base: GetLogEventsInput, answers: seq<Result<Page, string>>, i: nat,
                  outputList: seq<seq<LogEvent>>, requests: seq<GetLogEventsInput>, token: Option<string>, first: Option<string>)
    requires i < |answers| && answers[i].Success?
    requires !(token.Some? && answers[i].value.nextForwardToken == token.value)
    requires After(outputList, requests, Pages(base, answers[i..], token)) == Pages(base, answers, first)
    ensures After(outputList + [answers[i].value.events], requests + [RequestFor(base, token)],
                  Pages(base, answers[i + 1..], Some(answers[i].value.nextForwardToken))) == Pages(base, answers, first)
  {
    PagesTurn(base, answers, i, token);
    AfterAfter(outputList, requests, [answers[i].value.events], [RequestFor(base, token)],
               Pages(base, answers[i + 1..], Some(answers[i].value.nextForwardToken)));
  }

  /** The turn that ends the loop gives the outcome of `Pages`. */
  lemma LoopStops(base: GetLogEventsInput, answers: seq<Result<Page, string>>, i: nat,
                  outputList: seq<seq<LogEvent>>, requests: seq<GetLogEventsInput>, token: Option<string>, first: Option<string>)
    requires i < |answers|
    requires answers[i].Failure? || (token.Some? && answers[i].value.nextForwardToken == token.value)
    requires After(outputList, requests, Pages(base, answers[i..], token)) == Pages(base, answers, first)
    ensures Fetch(outputList, token, if answers[i].Failure? then Some(answers[i].error) else None,
                  requests + [RequestFor(base, token)], true) == Pages(base, answers, first)
  {
    PagesLast(base, answers, i, token);
  }

  /** `FetchCloudwatchLogs`: `answers` are the service's answers to the
      successive requests; `intervalSeconds` is how far back the first
      request starts. */
  method FetchCloudwatchLogs(logGroupName: string, logStreamName: string, nextForwardToken: Option<string>,
                             intervalSeconds: int, now: int, answers: seq<Result<Page, string>>)
    returns (outputList: seq<seq<LogEvent>>, nextToken: Option<string>, err: Option<string>,
             requests: seq<GetLogEventsInput>, stopped: bool)
    ensures Fetch(outputList, nextToken, err, requests, stopped) ==
      Pages(GetLogEventsInput(logGroupName, logStreamName, false, (now - intervalSeconds) * 1000, None), answers, nextForwardToken)
  {
    var base := GetLogEventsInput(logGroupName, logStreamName, false, (now - intervalSeconds) * 1000, None);
    var input := base;
    nextToken := nextForwardToken;
    outputList, err, requests, stopped := [], None, [], false;
    var i := 0;
    while i < |answers|
      invariant 0 <= i <= |answers|
      invariant RequestFor(input, nextToken) == RequestFor(base, nextToken)
      invariant After(outputList, requests, Pages(base, answers[i..], nextToken)) == Pages(base, answers, nextForwardToken)
      invariant err.None? && !stopped
    {
      if nextToken.Some? {
        input := input.(nextToken := nextToken, startFromHead := true);
      }
      assert input == RequestFor(base, nextToken);
      var answer := answers[i];
      if answer.Failure? || (nextToken.Some? && answer.value.nextForwardToken == nextToken.value) {
        LoopStops(base, answers, i, outputList, requests, nextToken, nextForwardToken);
        requests := requests + [input];
        if answer.Failure? {
          err := Some(answer.error);
        }
        stopped := true;
        return;
      }
      LoopTurns(base, answers, i, outputList, requests, nextToken, nextForwardToken);
      requests := requests + [input];
      nextToken := Some(answer.value.nextForwardToken);
      outputList := outputList + [answer.value.events];
      i := i + 1;
    }
    assert answers[i..] == [];
  }

  // ---------------------------------------------------------------- metrics

  const Modulus: int := 0x1_0000_0000

  type Uint32 = x: int | 0 <= x < 0x1_0000_0000

  /** `+=` on `uint32`: wraps around. */
  function Add32(a: Uint32, b: Uint32): Uint32 {
    (a + b) % Modulus
  }

  /** One query of the `GetMetricData` request. */
  datatype MetricQuery = MetricQuery(id: string, metricName: string, taskDefinitionFamily: string, clusterName: string,
                                     period: int, stat: string)

  /** The request: the four ECS Container Insights metrics of the task
      family in the cluster, averaged per minute over the last ten minutes. */
  datatype MetricInput = MetricInput(queries: seq<MetricQuery>, startTime: int, endTime: int)

  function MetricRequest(name: string, clusterName: string, now: int): (r: MetricInput)
    ensures |r.queries| == 4 && r.endTime - r.startTime == 600
    ensures forall q :: q in r.queries ==> q.taskDefinitionFamily == name && q.clusterName == clusterName && q.period == 60 && q.stat == "Average"
  {
    MetricInput([
      MetricQuery("mem_used", "MemoryUtilized", name, clusterName, 60, "Average"),
      MetricQuery("mem_reserved", "MemoryReserved", name, clusterName, 60, "Average"),
      MetricQuery("cpu_used", "CpuUtilized", name, clusterName, 60, "Average"),
      MetricQuery("cpu_reserved", "CpuReserved", name, clusterName, 60, "Average")], now - 600, now)
  }

  /** A result series: its query id and its values, each already converted
      by `uint32(value)`. */
  datatype MetricDataResult = MetricDataResult(id: string, values: seq<Uint32>)

  /** The four counters and the datapoint count, all `uint32`. */
  datatype Totals = Totals(memoryUtilized: Uint32, memoryReserved: Uint32, cpuUtilized: Uint32, cpuReserved: Uint32, datapoints: Uint32)

  const NoTotals: Totals := Totals(0, 0, 0, 0, 0)

  /** The switch on the series id for one value; only `cpu_reserved` counts a datapoint. */
  function Accumulate(t: Totals, id: string, v: Uint32): Totals {
    match id
    case "mem_used" => t.(memoryUtilized := Add32(t.memoryUtilized, v))
    case "mem_reserved" => t.(memoryReserved := Add32(t.memoryReserved, v))
    case "cpu_used" => t.(cpuUtilized := Add32(t.cpuUtilized, v))
    case "cpu_reserved" => t.(cpuReserved := Add32(t.cpuReserved, v), datapoints := Add32(t.datapoints, 1))
    case _ => t
  }

  function AccumulateValues(t: Totals, id: string, values: seq<Uint32>): Totals {
    if values == [] then t
    else Accumulate(AccumulateValues(t, id, values[..|values| - 1]), id, values[|values| - 1])
  }

  function AccumulateAll(results: seq<MetricDataResult>): Totals {
    if results == [] then NoTotals
    else
      var last := results[|results| - 1];
      AccumulateValues(AccumulateAll(results[..|results| - 1]), last.id, last.values)
  }

  /** The counter a series id adds to. */
  function Counter(t: Totals, id: string): Uint32 {
    match id
    case "mem_used" => t.memoryUtilized
    case "mem_reserved" => t.memoryReserved
    case "cpu_used" => t.cpuUtilized
    case "cpu_reserved" => t.cpuReserved
    case _ => 0
  }

  function Sum(values: seq<Uint32>): nat {
    if values == [] then 0 else Sum(values[..|values| - 1]) + values[|values| - 1]
  }

  /** The exact sum of the values of every series with a given id. */
  function SumFor(results: seq<MetricDataResult>, id: string): nat {
    if results == [] then 0
    else
      var last := results[|results| - 1];
      SumFor(results[..|results| - 1], id) + (if last.id == id then Sum(last.values) else 0)
  }

  /** The number of values of every series with a given id. */
  function CountFor(results: seq<MetricDataResult>, id: string): nat {
    if results == [] then 0
    else
      var last := results[|results| - 1];
      CountFor(results[..|results| - 1], id) + (if last.id == id then |last.values| else 0)
  }

  predicate IsMetricId(id: string) {
    id in {"mem_used", "mem_reserved", "cpu_used", "cpu_reserved"}
  }

  lemma ModAdd(a: int, b: int)
    ensures (a % Modulus + b) % Modulus == (a + b) % Modulus
  {
    var q := a / Modulus;
    assert a == q * Modulus + a % Modulus;
    assert a + b == (a % Modulus + b) + q * Modulus;
  }

  /** Accumulating the values of one series. */
  lemma {:induction false} AccumulateValuesSums(t: Totals, id: string, values: seq<Uint32>, other: string)
    requires IsMetricId(other)
    ensures Counter(AccumulateValues(t, id, values), other) ==
      (Counter(t, other) + (if id == other then Sum(values) else 0)) % Modulus
    ensures AccumulateValues(t, id, values).datapoints ==
      (t.datapoints + (if id == "cpu_reserved" then |values| else 0)) % Modulus
  {
    if values != [] {
      var n := |values| - 1;
      AccumulateValuesSums(t, id, values[..n], other);
      var u := AccumulateValues(t, id, values[..n]);
      ModAdd(Counter(t, other) + (if id == other then Sum(values[..n]) else 0), if id == other then values[n] else 0);
      ModAdd(t.datapoints + (if id == "cpu_reserved" then n else 0), if id == "cpu_reserved" then 1 else 0);
    }
  }

  /** Each counter is the exact sum of its series' values, and the
      datapoint count the number of `cpu_reserved` values, both modulo 2^32. */
  lemma {:induction false} TotalsWrap(results: seq<MetricDataResult>, id: string)
    requires IsMetricId(id)
    ensures Counter(AccumulateAll(results), id) == SumFor(results, id) % Modulus
    ensures AccumulateAll(results).datapoints == CountFor(results, "cpu_reserved") % Modulus
  {
    if results != [] {
      var n := |results| - 1;
      TotalsWrap(results[..n], id);
      AccumulateValuesSums(AccumulateAll(results[..n]), results[n].id, results[n].values, id);
      ModAdd(SumFor(results[..n], id), if results[n].id == id then Sum(results[n].values) else 0);
      ModAdd(CountFor(results[..n], "cpu_reserved"), if results[n].id == "cpu_reserved" then |results[n].values| else 0);
    }
  }

  /** The four results of `FetchCpuAndMemoryUsage`, in the order of its
      named results memoryUtilized, memoryReserved, cpuUtilized, cpuReserved. */
  datatype Usage = Usage(memoryUtilized: nat, memoryReserved: nat, cpuUtilized: nat, cpuReserved: nat)

  /** A `uint32` total divided by a non-zero `uint32` count (Go's unsigned
      division, which truncates); it never exceeds the total. */
  function Average(total: Uint32, count: Uint32): (a: nat)
    requires count != 0
    ensures a <= total
  {
    QuotientAtMost(total, count);
    total / count
  }

  /** A quotient by a positive divisor never exceeds the dividend. */
  lemma QuotientAtMost(n: nat, d: nat)
    requires d > 0
    ensures n / d <= n
  {
    var q := n / d;
    assert q * d + n % d == n;
    AtMostMultiple(q, d);
  }

  lemma {:induction false} AtMostMultiple(q: nat, d: nat)
    requires d > 0
    ensures q <= q * d
    decreases d
  {
    if d > 1 {
      AtMostMultiple(q, d - 1);
      assert q * d == q * (d - 1) + q;
    }
  }

  /** The return statement as written: the CPU averages in the memory slots
      and the memory averages in the CPU slots. */
  function ReportedAsWritten(t: Totals): (u: Usage)
    ensures t.datapoints == 0 ==> u == Usage(0, 0, 0, 0)
  {
    if t.datapoints == 0 then Usage(0, 0, 0, 0)
    else Usage(Average(t.cpuUtilized, t.datapoints), Average(t.cpuReserved, t.datapoints),
               Average(t.memoryUtilized, t.datapoints), Average(t.memoryReserved, t.datapoints))
  }

  /** The evident intent: each slot the average of the metric it is named after. */
  function Averages(t: Totals): (u: Usage)
    ensures t.datapoints == 0 ==> u == Usage(0, 0, 0, 0)
  {
    if t.datapoints == 0 then Usage(0, 0, 0, 0)
    else Usage(Average(t.memoryUtilized, t.datapoints), Average(t.memoryReserved, t.datapoints),
               Average(t.cpuUtilized, t.datapoints), Average(t.cpuReserved, t.datapoints))
  }

  /** For every total, the return statement as written reports the CPU
      averages as memory and the memory averages as CPU. */
  lemma ReportedSwapsAverages(t: Totals)
    ensures var u, a := ReportedAsWritten(t), Averages(t);
      u == Usage(a.cpuUtilized, a.cpuReserved, a.memoryUtilized, a.memoryReserved)
  {
  }

  /** With the intended slots, each result is its metric's wrapped total
      over the wrapped number of `cpu_reserved` values. */
  lemma AveragesNamed(results: seq<MetricDataResult>)
    requires CountFor(results, "cpu_reserved") % Modulus != 0
    ensures var u, d := Averages(AccumulateAll(results)), CountFor(results, "cpu_reserved") % Modulus;
      u.memoryUtilized == (SumFor(results, "mem_used") % Modulus) / d &&
      u.memoryReserved == (SumFor(results, "mem_reserved") % Modulus) / d &&
      u.cpuUtilized == (SumFor(results, "cpu_used") % Modulus) / d &&
      u.cpuReserved == (SumFor(results, "cpu_reserved") % Modulus) / d
  {
    TotalsWrap(results, "mem_used");
    TotalsWrap(results, "mem_reserved");
    TotalsWrap(results, "cpu_used");
    TotalsWrap(results, "cpu_reserved");
  }

  /** As written, the memory results are the CPU series' wrapped totals and
      the CPU results the memory series' ones, over the same count. */
  lemma ReportedNamed(results: seq<MetricDataResult>)
    requires CountFor(results, "cpu_reserved") % Modulus != 0
    ensures var u, d := ReportedAsWritten(AccumulateAll(results)), CountFor(results, "cpu_reserved") % Modulus;
      u.memoryUtilized == (SumFor(results, "cpu_used") % Modulus) / d &&
      u.memoryReserved == (SumFor(results, "cpu_reserved") % Modulus) / d &&
      u.cpuUtilized == (SumFor(results, "mem_used") % Modulus) / d &&
      u.cpuReserved == (SumFor(results, "mem_reserved") % Modulus) / d
  {
    AveragesNamed(results);
    ReportedSwapsAverages(AccumulateAll(results));
  }

  /** One memory series of 512 and one CPU series of 3, with one
      `cpu_reserved` datapoint: the code reports 3 as the memory utilized,
      where the average memory utilized is 512. */
  lemma SwappedSlots()
    ensures var results := [MetricDataResult("mem_used", [512]), MetricDataResult("cpu_used", [3]), MetricDataResult("cpu_reserved", [1])];
      ReportedAsWritten(AccumulateAll(results)).memoryUtilized == 3 &&
      Averages(AccumulateAll(results)).memoryUtilized == 512
  {
    var results := [MetricDataResult("mem_used", [512]), MetricDataResult("cpu_used", [3]), MetricDataResult("cpu_reserved", [1])];
    assert results[..2][..1] == results[..1] && results[..3][..2] == results[..2] && results[..3] == results;
    assert results[..1][..0] == [];
    assert AccumulateAll(results[..1]) == Totals(512, 0, 0, 0, 0);
    assert AccumulateAll(results[..2]) == Totals(512, 0, 3, 0, 0);
    assert AccumulateAll(results) == Totals(512, 0, 3, 1, 1);
  }

  /** `FetchCpuAndMemoryUsage`: a request error gives four zeros and the
      error; otherwise the values are summed per series id and divided by
      the number of `cpu_reserved` values, and the averages are returned in
      the slots of the return statement as it stands (`ReportedAsWritten`:
      the CPU averages as memory, the memory averages as CPU). */
  method FetchCpuAndMemoryUsage(name: string, clusterName: string, now: int,
                                getMetricData: MetricInput -> Result<seq<MetricDataResult>, string>)
    returns (usage: Usage, err: Option<string>)
    ensures var answer := getMetricData(MetricRequest(name, clusterName, now));
      (answer.Failure? ==> usage == Usage(0, 0, 0, 0) && err == Some(answer.error)) &&
      (answer.Success? ==> usage == ReportedAsWritten(AccumulateAll(answer.value)) && err.None?)
  {
    var request := MetricRequest(name, clusterName, now);
    var answer := getMetricData(request);
    if answer.Failure? {
      return Usage(0, 0, 0, 0), Some(answer.error);
    }
    var t := AccumulateResults(answer.value);
    err := None;
    if t.datapoints == 0 {
      usage := Usage(0, 0, 0, 0);
    } else {
      var n := t.datapoints;
      usage := Usage(Average(t.cpuUtilized, n), Average(t.cpuReserved, n), Average(t.memoryUtilized, n), Average(t.memoryReserved, n));
    }
  }

  /** The outer loop of `FetchCpuAndMemoryUsage`: the series in order. */
  method AccumulateResults(results: seq<MetricDataResult>) returns (t: Totals)
    ensures t == AccumulateAll(results)
  {
    t := NoTotals;
    var i := 0;
    while i < |results|
      invariant 0 <= i <= |results|
      invariant t == AccumulateAll(results[..i])
    {
      assert results[..i + 1][..i] == results[..i];
      t := AccumulateSeries(t, results[i]);
      i := i + 1;
    }
    assert results[..i] == results;
  }

  /** The inner loop of `FetchCpuAndMemoryUsage`: the values of one series. */
  method AccumulateSeries(t0: Totals, series: MetricDataResult) returns (t: Totals)
    ensures t == AccumulateValues(t0, series.id, series.values)
  {
    t := t0;
    var j := 0;
    while j < |series.values|
      invariant 0 <= j <= |series.values|
      invariant t == AccumulateValues(t0, series.id, series.values[..j])
    {
      assert series.values[..j + 1][..j] == series.values[..j];
      var value := series.values[j];
      match series.id {
        case "mem_used" => t := t.(memoryUtilized := (t.memoryUtilized + value) % Modulus);
        case "mem_reserved" => t := t.(memoryReserved := (t.memoryReserved + value) % Modulus);
        case "cpu_used" => t := t.(cpuUtilized := (t.cpuUtilized + value) % Modulus);
        case "cpu_reserved" =>
          t := t.(cpuReserved := (t.cpuReserved + value) % Modulus);
          t := t.(datapoints := (t.datapoints + 1) % Modulus);
        case _ =>
      }
      j := j + 1;
    }
    assert series.values[..j] == series.values;
  }
}
