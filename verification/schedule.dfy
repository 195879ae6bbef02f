/**
 The query window and the collection of its answers (main.go, main and sortResults).

 For each of the `daysToQuery` days two queries are issued, one outbound
 and one for the return leg with the airports swapped. Each query's answer
 reaches its direction's channel exactly once, in whatever order the
 requests finish; the drained channel is then sorted by the date that was
 queried and processed. Calendar days are day numbers, so "i days after
 `start`" is `start + i`; the network request is the parameter `fetch`,
 and the order of arrival is the content of the drained channel.
 */
module Schedule {
  import opened Wrappers
  import opened Model
  import opened Selection

  /** One request: the day asked for and the two airport codes. */
  datatype Query = Query(date: Day, origin: string, destination: string)

  /** The queries of one direction: one per day, starting at `start`. */
  function Window(start: Day, daysToQuery: int, origin: string, destination: string): (qs: seq<Query>)
    ensures |qs| == if daysToQuery > 0 then daysToQuery else 0
    ensures forall i :: 0 <= i < |qs| ==> qs[i] == Query(start + i, origin, destination)
  {
    seq(if daysToQuery > 0 then daysToQuery else 0, i => Query(start + i, origin, destination))
  }

  /** The scheduling loop of main: two queries per day, the return one with the airports swapped. */
  method ScheduleQueries(departureStart: Day, returnStart: Day, daysToQuery: int,
                         origin: string, destination: string)
    returns (departureQueries: seq<Query>, returnQueries: seq<Query>)
    ensures |departureQueries| == |returnQueries| == if daysToQuery > 0 then daysToQuery else 0
    ensures forall i :: 0 <= i < |departureQueries| ==>
      departureQueries[i] == Query(departureStart + i, origin, destination)
    ensures forall i :: 0 <= i < |returnQueries| ==>
      returnQueries[i] == Query(returnStart + i, destination, origin)
    ensures departureQueries == Window(departureStart, daysToQuery, origin, destination)
    ensures returnQueries == Window(returnStart, daysToQuery, destination, origin)
  {
    departureQueries, returnQueries := [], [];
    var i := 0;
    while i < daysToQuery
      invariant 0 <= i <= if daysToQuery > 0 then daysToQuery else 0
      invariant |departureQueries| == |returnQueries| == i
      invariant forall k :: 0 <= k < i ==> departureQueries[k] == Query(departureStart + k, origin, destination)
      invariant forall k :: 0 <= k < i ==> returnQueries[k] == Query(returnStart + k, destination, origin)
    {
      departureQueries := departureQueries + [Query(departureStart + i, origin, destination)];
      returnQueries := returnQueries + [Query(returnStart + i, destination, origin)];
      i := i + 1;
    }
  }

  /** What each request sends to its channel: the decoded answer with the date that was queried. */
  function Produce(qs: seq<Query>, fetch: Query -> Data): (rs: seq<Result>)
    ensures |rs| == |qs|
    ensures forall i :: 0 <= i < |qs| ==> rs[i] == Result(fetch(qs[i]), qs[i].date)
  {
    seq(|qs|, i requires 0 <= i < |qs| => Result(fetch(qs[i]), qs[i].date))
  }

  /** Every answer carries the segment that processing reads. */
  predicate AllAnswered(qs: seq<Query>, fetch: Query -> Data)
  {
    forall i :: 0 <= i < |qs| ==> |fetch(qs[i]).requestedFlightSegmentList| > 0
  }

  predicate SortedByDate(rs: seq<Result>)
  {
    forall i, j :: 0 <= i < j < |rs| ==> rs[i].queryDate <= rs[j].queryDate
  }

  predicate StrictlyIncreasingDates(rs: seq<Result>)
  {
    forall i, j :: 0 <= i < j < |rs| ==> rs[i].queryDate < rs[j].queryDate
  }

  /** The answers of one direction's window come in strictly increasing date order. */
  lemma WindowDatesIncrease(start: Day, daysToQuery: int, origin: string, destination: string, fetch: Query -> Data)
    ensures StrictlyIncreasingDates(Produce(Window(start, daysToQuery, origin, destination), fetch))
  {
  }

  /**
   sortResults: sorts the slice in place, ascending by queried date. The
   library sort is not stable and promises only order and permutation, and
   so does this contract.
   */
  method SortResults(a: array<Result>)
    modifies a
    ensures SortedByDate(a[..])
    ensures multiset(a[..]) == old(multiset(a[..]))
  {
    for i := 0 to a.Length
      invariant forall k, l :: 0 <= k < l < i ==> a[k].queryDate <= a[l].queryDate
      invariant multiset(a[..]) == old(multiset(a[..]))
    {
      var j := i;
      while j > 0 && a[j - 1].queryDate > a[j].queryDate
        invariant 0 <= j <= i
        invariant forall k, l :: 0 <= k < l <= i && k != j && l != j ==> a[k].queryDate <= a[l].queryDate
        invariant forall l :: j < l <= i ==> a[j].queryDate <= a[l].queryDate
        invariant multiset(a[..]) == old(multiset(a[..]))
      {
        Swap(a, j - 1, j);
        j := j - 1;
      }
    }
  }

  /** Exchanges two neighbouring slots of the array being sorted. */
  method Swap(a: array<Result>, i: int, j: int)
    requires 0 <= i < j < a.Length
    modifies a
    ensures a[i] == old(a[j]) && a[j] == old(a[i])
    ensures forall k :: 0 <= k < a.Length && k != i && k != j ==> a[k] == old(a[k])
    ensures multiset(a[..]) == old(multiset(a[..]))
  {
    a[i], a[j] := a[j], a[i];
  }

  /** A date-sorted rearrangement of a list whose dates strictly increase is that list itself. */
  lemma {:induction false} SortedPermutationIsUnique(s: seq<Result>, t: seq<Result>)
    requires SortedByDate(s) && StrictlyIncreasingDates(t)
    requires multiset(s) == multiset(t)
    ensures s == t
  {
    assert |s| == |multiset(s)| == |multiset(t)| == |t|;
    if |s| > 0 {
      SameHead(s, t);
      SameTail(s, t);
      SortedPermutationIsUnique(s[1..], t[1..]);
    }
  }

  lemma SameHead(s: seq<Result>, t: seq<Result>)
    requires SortedByDate(s) && StrictlyIncreasingDates(t)
    requires multiset(s) == multiset(t) && |s| > 0 && |t| > 0
    ensures s[0] == t[0]
  {
    assert s[0] in multiset(t);
    var k :| 0 <= k < |t| && t[k] == s[0];
    assert t[0] in multiset(s);
    var m :| 0 <= m < |s| && s[m] == t[0];
    assert s[0].queryDate <= s[m].queryDate;
    assert k == 0;
  }

  lemma SameTail(s: seq<Result>, t: seq<Result>)
    requires multiset(s) == multiset(t) && |s| > 0 && |t| > 0 && s[0] == t[0]
    ensures multiset(s[1..]) == multiset(t[1..])
  {
    assert s == [s[0]] + s[1..];
    assert t == [t[0]] + t[1..];
    assert multiset(s) == multiset{s[0]} + multiset(s[1..]);
    assert multiset(t) == multiset{s[0]} + multiset(t[1..]);
    forall x
      ensures multiset(s[1..])[x] == multiset(t[1..])[x]
    {
      assert multiset(s)[x] == multiset(t)[x];
    }
  }

  /**
   One direction after the barrier: drain the channel, sort by queried
   date, process. Whatever order the answers arrived in, the sorted list is
   the window's answers in day order.
   */
  method CollectAndProcess(queries: seq<Query>, fetch: Query -> Data, channel: seq<Result>)
    returns (results: seq<Result>, report: Report)
    requires AllAnswered(queries, fetch)
    requires multiset(channel) == multiset(Produce(queries, fetch))
    ensures SortedByDate(results) && multiset(results) == multiset(channel)
    ensures StrictlyIncreasingDates(Produce(queries, fetch)) ==> results == Produce(queries, fetch)
    ensures forall i :: 0 <= i < |results| ==> HasSegment(results[i])
    ensures report == ExpectedReport(results)
  {
    var drained: seq<Result> := [];
    for k := 0 to |channel|
      invariant drained == channel[..k]
    {
      drained := drained + [channel[k]];
    }
    assert drained == channel;
    var a := new Result[|drained|](k requires 0 <= k < |drained| => drained[k]);
    assert a[..] == drained;
    SortResults(a);
    results := a[..];
    forall i | 0 <= i < |results|
      ensures HasSegment(results[i])
    {
      assert results[i] in multiset(Produce(queries, fetch));
    }
    if StrictlyIncreasingDates(Produce(queries, fetch)) {
      SortedPermutationIsUnique(results, Produce(queries, fetch));
    }
    report := ProcessResults(results);
  }

  /**
   How main ends once the arguments are checked: Go's `make(chan T, n)`
   panics for a negative capacity, so a negative day count stops the
   program before any query is issued; otherwise both directions report.
   */
  datatype Outcome =
    | ChannelSizeOutOfRange
    | Reports(departureReport: Report, returnReport: Report)

  /**
   The whole query engine after argument checks: create both channels with
   the day count as capacity, schedule both directions, collect each
   direction's answers in any arrival order, sort and process. The reports
   depend only on the answers, never on the arrival order.
   */
  method QueryWindow(departureStart: Day, returnStart: Day, daysToQuery: int,
                     origin: string, destination: string, fetch: Query -> Data,
                     departuresCh: seq<Result>, returnsCh: seq<Result>)
    returns (outcome: Outcome)
    requires AllAnswered(Window(departureStart, daysToQuery, origin, destination), fetch)
    requires AllAnswered(Window(returnStart, daysToQuery, destination, origin), fetch)
    requires multiset(departuresCh) == multiset(Produce(Window(departureStart, daysToQuery, origin, destination), fetch))
    requires multiset(returnsCh) == multiset(Produce(Window(returnStart, daysToQuery, destination, origin), fetch))
    ensures outcome.ChannelSizeOutOfRange? <==> daysToQuery < 0
    ensures outcome.Reports? ==>
      && outcome.departureReport == ExpectedReport(Produce(Window(departureStart, daysToQuery, origin, destination), fetch))
      && outcome.returnReport == ExpectedReport(Produce(Window(returnStart, daysToQuery, destination, origin), fetch))
    ensures daysToQuery == 0 ==> outcome == Reports(Report([], None), Report([], None))
  {
    if daysToQuery < 0 {
      return ChannelSizeOutOfRange;
    }
    var departureQueries, returnQueries := ScheduleQueries(departureStart, returnStart, daysToQuery, origin, destination);
    WindowDatesIncrease(departureStart, daysToQuery, origin, destination, fetch);
    WindowDatesIncrease(returnStart, daysToQuery, destination, origin, fetch);
    var departureResults, departureReport := CollectAndProcess(departureQueries, fetch, departuresCh);
    var returnResults, returnReport := CollectAndProcess(returnQueries, fetch, returnsCh);
    outcome := Reports(departureReport, returnReport);
  }
}
