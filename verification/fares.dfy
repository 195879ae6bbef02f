/**
 The loyalty-club price of one flight (main.go, getSmilesClubFare).
 */
module Fares {
  import opened Model

  /** The fare type whose miles are compared. */
  const SmilesClub := "SMILES_CLUB"

  /** The "infinitely expensive" price given to a flight without a SMILES_CLUB fare. */
  const Sentinel := 9_999_999

  /** The miles of the first SMILES_CLUB fare in list order, or the sentinel when there is none. */
  function ClubFare(fares: seq<Fare>): int
  {
    if fares == [] then Sentinel
    else if fares[0].fType == SmilesClub then fares[0].miles
    else ClubFare(fares[1..])
  }

  /** Index `k` holds the first SMILES_CLUB fare of `fares`. */
  ghost predicate FirstClubFareAt(fares: seq<Fare>, k: int)
  {
    && 0 <= k < |fares|
    && fares[k].fType == SmilesClub
    && forall j :: 0 <= j < k ==> fares[j].fType != SmilesClub
  }

  /** The price is that of the first SMILES_CLUB fare; later ones do not matter. */
  lemma {:induction false} ClubFareIsFirst(fares: seq<Fare>, k: int)
    requires FirstClubFareAt(fares, k)
    ensures ClubFare(fares) == fares[k].miles
  {
    if k > 0 {
      assert fares[0].fType != SmilesClub;
      ClubFareIsFirst(fares[1..], k - 1);
    }
  }

  /** Without any SMILES_CLUB fare the price is exactly the sentinel. */
  lemma {:induction false} ClubFareAbsent(fares: seq<Fare>)
    requires forall j :: 0 <= j < |fares| ==> fares[j].fType != SmilesClub
    ensures ClubFare(fares) == Sentinel
  {
    if fares != [] {
      ClubFareAbsent(fares[1..]);
    }
  }

  /** A price other than the sentinel always comes from a SMILES_CLUB fare of the list. */
  lemma {:induction false} ClubFareSource(fares: seq<Fare>)
    ensures ClubFare(fares) != Sentinel ==>
      exists k :: FirstClubFareAt(fares, k) && fares[k].miles == ClubFare(fares)
  {
    if fares != [] && fares[0].fType != SmilesClub {
      ClubFareSource(fares[1..]);
      if ClubFare(fares) != Sentinel {
        var k :| FirstClubFareAt(fares[1..], k) && fares[1..][k].miles == ClubFare(fares[1..]);
        assert FirstClubFareAt(fares, k + 1);
      }
    } else if fares != [] {
      assert FirstClubFareAt(fares, 0);
    }
  }

  /** The scan over the flight's fare list, returning at the first SMILES_CLUB fare. */
  method GetSmilesClubFare(f: Flight) returns (miles: int)
    ensures miles == ClubFare(f.fareList)
    ensures forall k :: FirstClubFareAt(f.fareList, k) ==> miles == f.fareList[k].miles
    ensures (forall j :: 0 <= j < |f.fareList| ==> f.fareList[j].fType != SmilesClub) ==> miles == Sentinel
  {
    for i := 0 to |f.fareList|
      invariant forall j :: 0 <= j < i ==> f.fareList[j].fType != SmilesClub
    {
      var v := f.fareList[i];
      if v.fType == SmilesClub {
        ClubFareIsFirst(f.fareList, i);
        return v.miles;
      }
    }
    ClubFareAbsent(f.fareList);
    return Sentinel;
  }
}
