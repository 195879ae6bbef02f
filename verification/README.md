# Cheapest SMILES_CLUB fare over a window of days

A model of the core of a small Go command-line program that searches a
flight-search service for the cheapest loyalty-club ("SMILES_CLUB") fare
over a window of consecutive days, outbound and return. For each day
`i` of the window it issues one query for `(departureStart + i, origin,
destination)` and one for `(returnStart + i, destination, origin)`;
each direction's answers are collected in arrival order, sorted by the
day that was queried, and then reduced twice: to the cheapest flight of
each day, and to the cheapest flight of the whole window. A flight with no
SMILES_CLUB fare is priced at the sentinel 9,999,999; a candidate replaces
the current choice only when strictly cheaper, so ties keep the earliest
flight and the earliest day.

Modules (one per component, all files verified together):

- `wrappers.dfy` — `Option`.
- `model.dfy` (`Model`) — the response records (`Fare`, `Flight`,
  `Segment`, `Data`, `Result`, …), Go's zero values, and the custom
  decoder of a departure/arrival object as a class over the storage its
  pointer receiver designates.
- `fares.dfy` (`Fares`) — the SMILES_CLUB price of one flight.
- `selection.dfy` (`Selection`) — the per-day and overall running
  minimums and what is reported.
- `schedule.dfy` (`Schedule`) — the query window, what each request sends
  to its channel, draining, sorting, and the whole engine for both
  directions.
- `parameters.dfy` (`Parameters`) — the package-level inputs and the
  command-line checks.

Points where the code does something other than what its own messages and
declarations suggest; the model follows the code:

- The day count: the usage text (main.go:42) asks for a number of days to
  query, and the error message at main.go:235 says the count "cannot be
  more than 10", yet the check at main.go:234 refuses 10 itself. Any other
  signed 64-bit value below 10 is accepted, with no lower bound. A count of
  0 produces no queries and empty reports. A negative count passes the
  checks but makes `make(chan model.Result, daysToQuery)` at main.go:63
  panic before any query is issued (`Schedule.QueryWindow` returns
  `ChannelSizeOutOfRange`).
- `sortResults` uses `sort.Slice`, which is not stable and promises only
  order and permutation. Query days are distinct by construction, so the
  sorted list is unique anyway (`Schedule.SortedPermutationIsUnique`).
- `BoardingTax` is declared in model/model.go:82 and never used: no tax is
  requested for the winner.
- `main.go` imports `smiles/data/model` but uses `Fare.Miles` and a
  `time.Time` departure date, which are the shapes of `model/model.go`; the
  model uses those.

## Model

| member | source | states |
|---|---|---|
| `Model.FlightDetailRef.UnmarshalJSON` | model/model.go:87-107 | a malformed payload fails before the date is looked at; a date not in the fixed layout fails; on either failure date and airport are unchanged; only when both steps succeed are the parsed date and the payload's airport stored, both together |
| `Fares.GetSmilesClubFare` | main.go:190-199 | returns the miles of the first SMILES_CLUB fare in list order, and exactly 9,999,999 when the flight has none |
| `Fares.ClubFareIsFirst` | main.go:191-195 | the price is that of the first SMILES_CLUB fare; later SMILES_CLUB fares of the same flight are ignored |
| `Fares.ClubFareAbsent` | main.go:196-198 | a fare list without a SMILES_CLUB fare is priced at the sentinel |
| `Fares.ClubFareSource` | main.go:190-198 | any price other than the sentinel is the miles of the first SMILES_CLUB fare of the list |
| `Selection.RunningMinIsFirstMin` | main.go:243-262 | the strict-`>` running minimum from (zero flight, sentinel) ends with a price no candidate undercuts, capped at the sentinel; a real price is that of the first candidate that has it; a sentinel price leaves the zero flight |
| `Selection.FirstMinUnique` | main.go:253-261 | that characterization admits exactly one choice, so it is an independent definition of the running minimum |
| `Selection.CheapestOfDay` | main.go:248-257 | the inner loop yields the first cheapest flight of the day's first segment at min(sentinel, every flight's SMILES_CLUB price) |
| `Selection.Reported` | main.go:264-274 | every day winner whose price is not the sentinel is listed, every listed line is such a winner, never more lines than days |
| `Selection.ReportedIsFilter` | main.go:264-274 | one line per day with a real price, with repeats kept: the winner of day i is the line numbered by how many earlier days have a real price, and every line is such a day's winner |
| `Selection.ReportedInDayOrder` | main.go:264-274 | a day with a real price is printed before every later day's line: lines come in day order |
| `Selection.ProcessResults` | main.go:241-290 | returns the per-day winners with a real price in day order and the overall winner when its price is not the sentinel; every result must carry a first segment; an empty list reports nothing |
| `Selection.DayCheapestBound` | main.go:251-257 | no flight of a day is cheaper than that day's winner |
| `Selection.OverallIsCheapestFlight` | main.go:243-262 | the overall price is at most every flight's price on every day and at most the sentinel; a real overall price belongs to the earliest flight on the earliest day that has it |
| `Selection.OverallAttainedAt` | main.go:259-262 | a day whose winner is overall and strictly cheaper than every earlier day's contributes its first cheapest flight |
| `Selection.NothingFoundIff` | main.go:278-288 | nothing is reported overall exactly when no flight of any day has a price below the sentinel |
| `Selection.WinnerHasClubFare` | main.go:196-198 | a reported overall winner has a SMILES_CLUB fare of exactly the reported miles; a flight without one never wins |
| `Selection.SingleDayOverall` | main.go:259-262 | with one day in the window the overall winner is that day's winner |
| `Selection.RunningMinOrderIndependent` | main.go:253-256 | when real prices are pairwise different, scanning the same candidates in another order chooses the same one |
| `Selection.DayCheapestOrderIndependent` | main.go:251-257 | permuting a day's flight list does not change its winner when real prices are pairwise different |
| `Selection.TwoDayScenario` | main.go:241-288 | two days whose SMILES_CLUB prices are 15000 and 12000 miles list both day winners and report the 12000-mile flight of the second day overall |
| `Schedule.ScheduleQueries` | main.go:74-83 | iteration i issues (departureStart + i, origin, destination) and (returnStart + i, destination, origin): N queries per direction, none when N is 0 or negative |
| `Schedule.WindowDatesIncrease` | main.go:75-77 | the queried days of one direction strictly increase, so no two results share a sort key |
| `Schedule.SortResults` | main.go:113-117 | after sorting, the slice is non-decreasing by queried date and a permutation of what it was |
| `Schedule.SortedPermutationIsUnique` | main.go:103-104 | a date-sorted permutation of a list with strictly increasing dates is that list |
| `Schedule.CollectAndProcess` | main.go:95-110 | draining, sorting and processing one direction yields a date-sorted permutation of what arrived, equal to the answers in query order whenever query days strictly increase, and the report of that list |
| `Schedule.QueryWindow` | main.go:63-110 | a negative day count ends in the channel-capacity panic and nothing else; otherwise, whatever order the answers arrive in, each direction's report is the report of its answers in day order; a window of 0 days reports nothing |
| `Parameters.Utf8Length` | main.go:203-211 | Go's byte length of a string: one to four bytes per character, exactly the character count for ASCII |
| `Parameters.ParseInt` | main.go:228-232 | a string is accepted exactly when it is decimal digits with an optional `+` or `-` in front and its value lies in the signed 64-bit range; the result is that value, negated after `-` |
| `Parameters.ParseIntDecimal` | main.go:228-232 | every signed 64-bit value is accepted from its decimal text and read back unchanged |
| `Parameters.CheckParameters` | main.go:201-239 | arguments are accepted exactly when both airport codes are 3 bytes, both dates parse, and the day count parses and is below 10; each error is given exactly when every earlier check passed and its own check failed; accepted arguments become the configuration verbatim |
| `Parameters.DayCountHasNoLowerBound` | main.go:228-238 | every day count from the signed 64-bit minimum up to 9, including 0 and negatives, is accepted |
| `Parameters.Globals.constructor` | main.go:20-27 | the defaults: EZE to PUJ, from 2022-09-10 and 2022-09-20, 5 days |
| `Parameters.Globals.ValidateParameters` | main.go:201-239 | reports the first failing check; each variable is overwritten just before its own check, so on failure the earlier ones already hold their arguments; the day count is stored only when every check passed |
| `Parameters.Globals.ParseCommandLine` | main.go:40-48 | any argument count other than program name plus five is refused before anything is overwritten; otherwise the error is exactly the one validateParameters reports, success stores the checked configuration, and a failure leaves the day count unchanged |

## Left out

- The HTTP request (`createURL`, `createRequest`, the fixed headers and
  query parameters, the transport) and the development path that reads a
  response file: the answer to a query is the function parameter `fetch`.
- Goroutines, the wait group and the buffered channels: each direction's
  drained channel is a parameter whose content is any permutation of the
  results its requests send.
- Fatal exits on a failed request, an empty body or undecodable JSON:
  every request is assumed to succeed; argument errors are values instead
  of exits.
- The progress bar, the elapsed-time line, the echoed inputs
  (main.go:58-61), the direction headers (main.go:106 and main.go:109) and
  all printed formatting: only the day lines and the overall winner are
  returned, as a `Report`.
- Fares.GetSmilesClubFare: the warning line printed for every flight
  without a SMILES_CLUB fare (main.go:196) is not returned; such a flight
  is recognisable only by its sentinel price.
- Calendar arithmetic and time parsing: query dates are day numbers
  (`AddDate(0, 0, i)` is `+ i`), flight times are abstract integers, and
  the date checks and the timestamp parser are function parameters;
  converting the validated date strings to start days (main.go:52-56) is
  therefore not modelled, and `QueryWindow` takes the start days.
- JSON decoding itself: the structural decode of a departure/arrival
  object is the parameter `decode`; decoding of the other records is not
  modelled.
- `BoardingTax`, `Totals` and `Total`: unused by the code, and `Money` is a
  32-bit float.
- 64-bit wrap-around of miles, stop counts and day arithmetic: integers are
  unbounded (the selection only compares miles).
- Command-line arguments that are not valid UTF-8 cannot be written as
  Dafny strings; `Utf8Length` covers every string of Unicode scalar values.
- `data/model/model.go` and the root `model.go` are earlier revisions
  holding only type declarations with other field names; they are not part
  of this model.
- Parameters.Globals.ValidateParameters: the date checks are the parameter
  `isDate`, so the model does not decide which date texts Go's layout
  2006-01-02 accepts.
- Schedule.QueryWindow: the run-time panic of `make(chan, n)` for a negative
  day count is the outcome `ChannelSizeOutOfRange`; the panic message and
  the lines printed before it (main.go:58-61) are not modelled.
- Selection.ProcessResults: a result without a first segment makes the
  source's index at main.go:251 panic after the earlier days' lines are
  printed; the model requires every result to carry one (`HasSegment`)
  and does not model the partial output before the panic.
