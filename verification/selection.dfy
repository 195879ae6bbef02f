/**
 Choosing the cheapest flight (main.go, processResults).

 Two running minimums with the same rule: start from the zero flight at the
 sentinel price and replace the current choice only when a candidate is
 STRICTLY cheaper, so that among equally cheap candidates the first one
 stays. The first runs over the flights of one day's first segment, the
 second over the days' winners in the order of the result list. What the
 source prints is returned as a `Report`.
 */
module Selection {
  import opened Wrappers
  import opened Model
  import opened Fares

  /** A flight together with the SMILES_CLUB miles it was chosen for. */
  datatype Cheapest = Cheapest(flight: Flight, fare: int)

  /** The choice before any candidate is seen: the zero flight at the sentinel price. */
  const NoChoice := Cheapest(ZeroFlight, Sentinel)

  /** What is reported: each day's winner that has a real price, and the overall winner if it has one. */
  datatype Report = Report(daily: seq<Cheapest>, overall: Option<Cheapest>)

  /** One step of a running minimum: the candidate replaces the choice only when strictly cheaper. */
  function Better(choice: Cheapest, candidate: Cheapest): Cheapest
  {
    if choice.fare > candidate.fare then candidate else choice
  }

  /** The choice left after scanning `cs` from left to right. */
  function RunningMin(cs: seq<Cheapest>): Cheapest
    decreases |cs|
  {
    if cs == [] then NoChoice else Better(RunningMin(cs[..|cs| - 1]), cs[|cs| - 1])
  }

  /**
   `m` is the first cheapest of `cs`, capped at the sentinel: no candidate
   is cheaper; a real price is the price of some candidate, and of no
   earlier one; the sentinel price means nothing was chosen.
   */
  ghost predicate IsFirstMin(cs: seq<Cheapest>, m: Cheapest)
  {
    && m.fare <= Sentinel
    && (forall j :: 0 <= j < |cs| ==> m.fare <= cs[j].fare)
    && (m.fare == Sentinel ==> m == NoChoice)
    && (m.fare < Sentinel ==>
          exists k :: 0 <= k < |cs| && m == cs[k] && forall j :: 0 <= j < k ==> cs[j].fare > m.fare)
  }

  lemma {:induction false} RunningMinIsFirstMin(cs: seq<Cheapest>)
    ensures IsFirstMin(cs, RunningMin(cs))
  {
    if cs != [] {
      var n := |cs| - 1;
      var prefix := cs[..n];
      RunningMinIsFirstMin(prefix);
      var choice := RunningMin(prefix);
      assert forall j :: 0 <= j < n ==> cs[j] == prefix[j];
      if choice.fare > cs[n].fare {
        assert RunningMin(cs) == cs[n];
      } else {
        assert RunningMin(cs) == choice;
        if choice.fare < Sentinel {
          var k :| 0 <= k < n && choice == prefix[k] && forall j :: 0 <= j < k ==> prefix[j].fare > choice.fare;
          assert choice == cs[k];
        }
      }
    }
  }

  /** The characterization determines the choice: there is only one first cheapest. */
  lemma FirstMinUnique(cs: seq<Cheapest>, m1: Cheapest, m2: Cheapest)
    requires IsFirstMin(cs, m1) && IsFirstMin(cs, m2)
    ensures m1 == m2
  {
  }

  /** The SMILES_CLUB price of a flight. */
  function FlightFare(f: Flight): int
  {
    ClubFare(f.fareList)
  }

  /** The flights of a day as candidates, each priced at its SMILES_CLUB fare. */
  function Candidates(flights: seq<Flight>): (cs: seq<Cheapest>)
    ensures |cs| == |flights|
    ensures forall i :: 0 <= i < |flights| ==> cs[i] == Cheapest(flights[i], FlightFare(flights[i]))
  {
    seq(|flights|, i requires 0 <= i < |flights| => Cheapest(flights[i], FlightFare(flights[i])))
  }

  lemma RunningMinStep(cs: seq<Cheapest>, i: nat)
    requires i < |cs|
    ensures RunningMin(cs[..i + 1]) == Better(RunningMin(cs[..i]), cs[i])
    ensures Reported(cs[..i + 1]) == Reported(cs[..i]) + (if cs[i].fare != Sentinel then [cs[i]] else [])
  {
    assert cs[..i + 1][..i] == cs[..i];
  }

  /** Only the first segment of a day is read; without one the source's indexing fails. */
  predicate HasSegment(res: Result)
  {
    |res.data.requestedFlightSegmentList| > 0
  }

  function DayFlights(res: Result): seq<Flight>
    requires HasSegment(res)
  {
    res.data.requestedFlightSegmentList[0].flightList
  }

  function DayCheapest(res: Result): Cheapest
    requires HasSegment(res)
  {
    RunningMin(Candidates(DayFlights(res)))
  }

  function DayWinners(r: seq<Result>): (ws: seq<Cheapest>)
    requires forall i :: 0 <= i < |r| ==> HasSegment(r[i])
    ensures |ws| == |r|
    ensures forall i :: 0 <= i < |r| ==> ws[i] == DayCheapest(r[i])
  {
    seq(|r|, i requires 0 <= i < |r| => DayCheapest(r[i]))
  }

  /** The overall choice: the running minimum over the days' winners. */
  function Overall(r: seq<Result>): Cheapest
    requires forall i :: 0 <= i < |r| ==> HasSegment(r[i])
  {
    RunningMin(DayWinners(r))
  }

  /** The day winners that are reported: those whose price is not the sentinel, in order. */
  function Reported(ws: seq<Cheapest>): (daily: seq<Cheapest>)
    ensures |daily| <= |ws|
    ensures forall c :: c in daily ==> c in ws && c.fare != Sentinel
    ensures forall i :: 0 <= i < |ws| && ws[i].fare != Sentinel ==> ws[i] in daily
    decreases |ws|
  {
    if ws == [] then []
    else
      var n := |ws| - 1;
      assert forall i :: 0 <= i < n ==> ws[..n][i] == ws[i];
      Reported(ws[..n]) + (if ws[n].fare != Sentinel then [ws[n]] else [])
  }

  /**
   One line per day with a real price, in day order: the winner of day `i`
   is line number |Reported(ws[..i])|, and every line is some such day's.
   */
  lemma ReportedIsFilter(ws: seq<Cheapest>)
    ensures forall i :: 0 <= i < |ws| && ws[i].fare != Sentinel ==>
      |Reported(ws[..i])| < |Reported(ws)| && Reported(ws)[|Reported(ws[..i])|] == ws[i]
    ensures forall k :: 0 <= k < |Reported(ws)| ==> PrintedForSomeDay(ws, k)
  {
    forall i | 0 <= i < |ws| && ws[i].fare != Sentinel
      ensures |Reported(ws[..i])| < |Reported(ws)| && Reported(ws)[|Reported(ws[..i])|] == ws[i]
    {
      ReportedLineOf(ws, i);
    }
    forall k | 0 <= k < |Reported(ws)|
      ensures PrintedForSomeDay(ws, k)
    {
      var i := ReportedDayOf(ws, k);
    }
  }

  /** Line `k` is the winner of a day `i` with a real price, after one line per earlier such day. */
  ghost predicate PrintedForSomeDay(ws: seq<Cheapest>, k: int)
  {
    exists i :: 0 <= i < |ws| && ws[i].fare != Sentinel && |Reported(ws[..i])| == k && k < |Reported(ws)| && Reported(ws)[k] == ws[i]
  }

  /** The last day's line comes after all earlier lines. */
  lemma ReportedSnoc(ws: seq<Cheapest>)
    requires ws != []
    ensures Reported(ws) == Reported(ws[..|ws| - 1]) + if ws[|ws| - 1].fare != Sentinel then [ws[|ws| - 1]] else []
  {
  }

  lemma {:induction false} ReportedLineOf(ws: seq<Cheapest>, i: int)
    requires 0 <= i < |ws| && ws[i].fare != Sentinel
    ensures |Reported(ws[..i])| < |Reported(ws)| && Reported(ws)[|Reported(ws[..i])|] == ws[i]
    decreases |ws|
  {
    var n := |ws| - 1;
    var p := ws[..n];
    ReportedSnoc(ws);
    if i < n {
      assert p[..i] == ws[..i] && p[i] == ws[i];
      ReportedLineOf(p, i);
    }
  }

  lemma {:induction false} ReportedDayOf(ws: seq<Cheapest>, k: int) returns (i: int)
    requires 0 <= k < |Reported(ws)|
    ensures 0 <= i < |ws| && ws[i].fare != Sentinel && |Reported(ws[..i])| == k && Reported(ws)[k] == ws[i]
    decreases |ws|
  {
    var n := |ws| - 1;
    var p := ws[..n];
    ReportedSnoc(ws);
    if k < |Reported(p)| {
      i := ReportedDayOf(p, k);
      assert p[..i] == ws[..i] && p[i] == ws[i];
    } else {
      i := n;
    }
  }

  /** A later day with a real price is printed on a later line. */
  lemma {:induction false} ReportedInDayOrder(ws: seq<Cheapest>, i: int, j: int)
    requires 0 <= i < j <= |ws| && ws[i].fare != Sentinel
    ensures |Reported(ws[..i])| < |Reported(ws[..j])|
    decreases j
  {
    var q := ws[..j];
    ReportedSnoc(q);
    assert q[..j - 1] == ws[..j - 1];
    if i < j - 1 {
      ReportedInDayOrder(ws, i, j - 1);
    }
  }

  /** What processing a sorted result list reports. */
  function ExpectedReport(r: seq<Result>): Report
    requires forall i :: 0 <= i < |r| ==> HasSegment(r[i])
  {
    var best := Overall(r);
    Report(Reported(DayWinners(r)), if best.fare != Sentinel then Some(best) else None)
  }

  /** The inner loop of processResults: the first cheapest flight of one day. */
  method CheapestOfDay(flights: seq<Flight>) returns (day: Cheapest)
    ensures day == RunningMin(Candidates(flights))
    ensures IsFirstMin(Candidates(flights), day)
  {
    ghost var cs := Candidates(flights);
    var cheapestFlightDay := ZeroFlight;
    var cheapestFareDay := Sentinel;
    for i := 0 to |flights|
      invariant Cheapest(cheapestFlightDay, cheapestFareDay) == RunningMin(cs[..i])
    {
      var f := flights[i];
      var smilesClubFare := GetSmilesClubFare(f);
      RunningMinStep(cs, i);
      if cheapestFareDay > smilesClubFare {
        cheapestFlightDay := f;
        cheapestFareDay := smilesClubFare;
      }
    }
    assert cs[..|flights|] == cs;
    day := Cheapest(cheapestFlightDay, cheapestFareDay);
    RunningMinIsFirstMin(cs);
  }

  /** processResults over a result list, returning what it prints. */
  method ProcessResults(r: seq<Result>) returns (report: Report)
    requires forall i :: 0 <= i < |r| ==> HasSegment(r[i])
    ensures report == ExpectedReport(r)
    ensures |r| == 0 ==> report == Report([], None)
  {
    ghost var ws := DayWinners(r);
    var cheapestFlight := ZeroFlight;
    var cheapestFare := Sentinel;
    var daily: seq<Cheapest> := [];
    for i := 0 to |r|
      invariant Cheapest(cheapestFlight, cheapestFare) == RunningMin(ws[..i])
      invariant daily == Reported(ws[..i])
    {
      var day := CheapestOfDay(DayFlights(r[i]));
      RunningMinStep(ws, i);
      if cheapestFare > day.fare {
        cheapestFlight := day.flight;
        cheapestFare := day.fare;
      }
      if day.fare != Sentinel {
        daily := daily + [day];
      }
    }
    assert ws[..|r|] == ws;
    var overall := if cheapestFare != Sentinel then Some(Cheapest(cheapestFlight, cheapestFare)) else None;
    report := Report(daily, overall);
  }

  /**
   Day `i`, flight `j` is the earliest cheapest flight of the whole list:
   every flight of an earlier day, and every earlier flight of day `i`, is
   strictly dearer.
   */
  ghost predicate EarliestCheapestAt(r: seq<Result>, i: int, j: int)
    requires forall d :: 0 <= d < |r| ==> HasSegment(r[d])
  {
    && 0 <= i < |r| && 0 <= j < |DayFlights(r[i])|
    && (forall d, g :: 0 <= d < i && 0 <= g < |DayFlights(r[d])| ==>
          FlightFare(DayFlights(r[d])[g]) > FlightFare(DayFlights(r[i])[j]))
    && (forall g :: 0 <= g < j ==> FlightFare(DayFlights(r[i])[g]) > FlightFare(DayFlights(r[i])[j]))
  }

  lemma DayCheapestIsFirstMin(res: Result)
    requires HasSegment(res)
    ensures IsFirstMin(Candidates(DayFlights(res)), DayCheapest(res))
  {
    RunningMinIsFirstMin(Candidates(DayFlights(res)));
  }

  /** No flight of any day is cheaper than the day's winner. */
  lemma DayCheapestBound(res: Result, j: int)
    requires HasSegment(res) && 0 <= j < |DayFlights(res)|
    ensures DayCheapest(res).fare <= FlightFare(DayFlights(res)[j])
  {
    DayCheapestIsFirstMin(res);
    assert Candidates(DayFlights(res))[j].fare == FlightFare(DayFlights(res)[j]);
  }

  /** The overall price is the minimum over every flight of every day, capped at the sentinel, and is won by the earliest such flight. */
  lemma OverallIsCheapestFlight(r: seq<Result>)
    requires forall i :: 0 <= i < |r| ==> HasSegment(r[i])
    ensures Overall(r).fare <= Sentinel
    ensures forall i, j :: 0 <= i < |r| && 0 <= j < |DayFlights(r[i])| ==>
      Overall(r).fare <= FlightFare(DayFlights(r[i])[j])
    ensures Overall(r).fare < Sentinel ==>
      exists i, j :: EarliestCheapestAt(r, i, j) &&
        Overall(r) == Cheapest(DayFlights(r[i])[j], FlightFare(DayFlights(r[i])[j]))
  {
    var ws := DayWinners(r);
    var m := Overall(r);
    RunningMinIsFirstMin(ws);
    forall i, j | 0 <= i < |r| && 0 <= j < |DayFlights(r[i])|
      ensures m.fare <= FlightFare(DayFlights(r[i])[j])
    {
      DayCheapestBound(r[i], j);
    }
    if m.fare < Sentinel {
      var i :| 0 <= i < |ws| && m == ws[i] && forall d :: 0 <= d < i ==> ws[d].fare > m.fare;
      OverallAttainedAt(r, i);
    }
  }

  /** If the overall choice is day `i`'s winner, and no earlier day's winner is as cheap, it is the earliest cheapest flight of that day. */
  lemma OverallAttainedAt(r: seq<Result>, i: int)
    requires forall d :: 0 <= d < |r| ==> HasSegment(r[d])
    requires 0 <= i < |r| && DayCheapest(r[i]).fare < Sentinel
    requires forall d :: 0 <= d < i ==> DayCheapest(r[d]).fare > DayCheapest(r[i]).fare
    ensures exists j ::
              EarliestCheapestAt(r, i, j) &&
              DayCheapest(r[i]) == Cheapest(DayFlights(r[i])[j], FlightFare(DayFlights(r[i])[j]))
  {
    var m := DayCheapest(r[i]);
    var cs := Candidates(DayFlights(r[i]));
    DayCheapestIsFirstMin(r[i]);
    var j :| 0 <= j < |cs| && m == cs[j] && forall g :: 0 <= g < j ==> cs[g].fare > m.fare;
    forall d, g | 0 <= d < i && 0 <= g < |DayFlights(r[d])|
      ensures FlightFare(DayFlights(r[d])[g]) > FlightFare(DayFlights(r[i])[j])
    {
      DayCheapestBound(r[d], g);
    }
    assert EarliestCheapestAt(r, i, j);
  }

  /** "Nothing found" is reported exactly when no flight of any day has a price below the sentinel. */
  lemma NothingFoundIff(r: seq<Result>)
    requires forall i :: 0 <= i < |r| ==> HasSegment(r[i])
    ensures ExpectedReport(r).overall.None? <==>
      forall i, j :: 0 <= i < |r| && 0 <= j < |DayFlights(r[i])| ==> FlightFare(DayFlights(r[i])[j]) >= Sentinel
  {
    OverallIsCheapestFlight(r);
  }

  /** A reported overall winner carries a SMILES_CLUB fare of exactly the reported miles: a flight without one never wins. */
  lemma WinnerHasClubFare(r: seq<Result>)
    requires forall i :: 0 <= i < |r| ==> HasSegment(r[i])
    ensures ExpectedReport(r).overall.Some? ==>
      var c := ExpectedReport(r).overall.value;
      exists k :: FirstClubFareAt(c.flight.fareList, k) && c.flight.fareList[k].miles == c.fare
  {
    OverallIsCheapestFlight(r);
    var m := Overall(r);
    if m.fare != Sentinel {
      var i, j :| EarliestCheapestAt(r, i, j) && m == Cheapest(DayFlights(r[i])[j], FlightFare(DayFlights(r[i])[j]));
      ClubFareSource(m.flight.fareList);
    }
  }

  /** With a single day, the overall winner is that day's winner. */
  lemma SingleDayOverall(d: Result)
    requires HasSegment(d)
    ensures Overall([d]) == DayCheapest(d)
  {
    RunningMinIsFirstMin(Candidates(DayFlights(d)));
    var ws := DayWinners([d]);
    assert ws[..0] == [];
    assert RunningMin(ws) == Better(RunningMin(ws[..0]), ws[0]);
    assert ws[0] == DayCheapest(d);
  }

  /** Real prices in `cs` are pairwise different. */
  ghost predicate DistinctRealFares(cs: seq<Cheapest>)
  {
    forall i, j :: 0 <= i < |cs| && 0 <= j < |cs| && i != j && cs[i].fare < Sentinel ==> cs[i].fare != cs[j].fare
  }

  /** When real prices are distinct, the order in which candidates are scanned does not change the choice. */
  lemma RunningMinOrderIndependent(cs: seq<Cheapest>, ds: seq<Cheapest>)
    requires forall c :: c in cs <==> c in ds
    requires DistinctRealFares(cs)
    ensures RunningMin(cs) == RunningMin(ds)
  {
    var m := RunningMin(ds);
    RunningMinIsFirstMin(ds);
    RunningMinIsFirstMin(cs);
    forall j | 0 <= j < |cs|
      ensures m.fare <= cs[j].fare
    {
      assert cs[j] in ds;
    }
    if m.fare < Sentinel {
      var k :| 0 <= k < |ds| && m == ds[k];
      assert m in cs;
      var k2 :| 0 <= k2 < |cs| && cs[k2] == m;
      assert forall j :: 0 <= j < k2 ==> cs[j].fare > m.fare;
    }
    assert IsFirstMin(cs, m);
    FirstMinUnique(cs, m, RunningMin(cs));
  }

  /** Permuting a day's flight list does not change the day's winner when real prices are distinct. */
  lemma DayCheapestOrderIndependent(flights: seq<Flight>, permuted: seq<Flight>)
    requires multiset(flights) == multiset(permuted)
    requires forall i, j :: 0 <= i < |flights| && 0 <= j < |flights| && i != j && FlightFare(flights[i]) < Sentinel ==>
      FlightFare(flights[i]) != FlightFare(flights[j])
    ensures RunningMin(Candidates(flights)) == RunningMin(Candidates(permuted))
  {
    var cs, ds := Candidates(flights), Candidates(permuted);
    forall c | c in cs
      ensures c in ds
    {
      var i :| 0 <= i < |cs| && cs[i] == c;
      assert flights[i] in multiset(permuted);
      var j :| 0 <= j < |permuted| && permuted[j] == flights[i];
      assert ds[j] == c;
    }
    forall c | c in ds
      ensures c in cs
    {
      var j :| 0 <= j < |ds| && ds[j] == c;
      assert permuted[j] in multiset(flights);
      var i :| 0 <= i < |flights| && flights[i] == permuted[j];
      assert cs[i] == c;
    }
    RunningMinOrderIndependent(cs, ds);
  }

  /** A day whose first segment holds the single flight `f`. */
  function OneFlightDay(f: Flight, d: Day): Result
  {
    Result(Data([Segment("", [f], BestPricing(0, "", Fare("", "", 0)), Airports([], []))]), d)
  }

  /** Two days whose only flights cost 15000 and 12000 miles: both days are listed, the second wins. */
  lemma TwoDayScenario(f1: Flight, f2: Flight, d1: Day, d2: Day)
    requires f1.fareList == [Fare("a", SmilesClub, 15000)]
    requires f2.fareList == [Fare("b", "CLUB", 1000), Fare("c", SmilesClub, 12000)]
    ensures ExpectedReport([OneFlightDay(f1, d1), OneFlightDay(f2, d2)]) ==
      Report([Cheapest(f1, 15000), Cheapest(f2, 12000)], Some(Cheapest(f2, 12000)))
  {
    var r := [OneFlightDay(f1, d1), OneFlightDay(f2, d2)];
    ClubFareIsFirst(f1.fareList, 0);
    ClubFareIsFirst(f2.fareList, 1);
    assert DayFlights(r[0]) == [f1] && DayFlights(r[1]) == [f2];
    var c1, c2 := Candidates([f1]), Candidates([f2]);
    assert c1[..0] == [] && c2[..0] == [];
    assert RunningMin(c1) == Better(NoChoice, c1[0]) && RunningMin(c2) == Better(NoChoice, c2[0]);
    var ws := DayWinners(r);
    assert ws == [Cheapest(f1, 15000), Cheapest(f2, 12000)];
    assert ws[..0] == [] && ws[..2] == ws;
    RunningMinStep(ws, 0);
    RunningMinStep(ws, 1);
  }
}
