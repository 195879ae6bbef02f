/**
 The command-line checks of main.go (main and validateParameters).

 The five inputs are package-level variables with built-in defaults that
 the checks overwrite one by one. The program stops at the first failing
 check; here that is an error value. Go's `len` of a string counts the
 bytes of its UTF-8 encoding, which `Utf8Length` computes. The day count is
 read as a signed 64-bit decimal (strconv.ParseInt with base 10 and bit size
 64), written out in `ParseInt`. Date parsing is a parameter `isDate`.
 */
module Parameters {
  import opened Wrappers

  const MinInt64 := -0x8000_0000_0000_0000
  const MaxInt64 := 0x7fff_ffff_ffff_ffff

  /** Number of bytes UTF-8 uses for `c`. */
  function Utf8Width(c: char): nat
  {
    if c as int < 0x80 then 1
    else if c as int < 0x800 then 2
    else if c as int < 0x1_0000 then 3
    else 4
  }

  /** The byte length of `s` in UTF-8: between one and four bytes per character, one for ASCII. */
  function Utf8Length(s: string): (n: nat)
    ensures |s| <= n <= 4 * |s|
    ensures (forall i :: 0 <= i < |s| ==> s[i] as int < 0x80) ==> n == |s|
  {
    if s == [] then 0 else Utf8Width(s[0]) + Utf8Length(s[1..])
  }

  predicate IsDigit(c: char)
  {
    '0' <= c <= '9'
  }

  predicate AllDigits(s: string)
  {
    forall i :: 0 <= i < |s| ==> IsDigit(s[i])
  }

  /** The value of a string of decimal digits, most significant first. */
  function DecimalValue(ds: string): nat
    requires AllDigits(ds)
  {
    if ds == [] then 0
    else DecimalValue(ds[..|ds| - 1]) * 10 + (ds[|ds| - 1] as int - '0' as int)
  }

  /**
   strconv.ParseInt(s, 10, 64): an optional sign, then at least one decimal
   digit and nothing else, with a value in the signed 64-bit range. Every
   failure (empty, bad syntax, out of range) is None.
   */
  function ParseInt(s: string): (r: Option<int>)
    ensures r.Some? ==> MinInt64 <= r.value <= MaxInt64
    ensures r.Some? ==>
      || (|s| > 0 && AllDigits(s) && r.value == DecimalValue(s))
      || (|s| > 1 && s[0] == '+' && AllDigits(s[1..]) && r.value == DecimalValue(s[1..]))
      || (|s| > 1 && s[0] == '-' && AllDigits(s[1..]) && r.value == -(DecimalValue(s[1..]) as int))
    ensures |s| > 0 && AllDigits(s) && DecimalValue(s) <= MaxInt64 ==> r == Some(DecimalValue(s))
    ensures |s| > 1 && s[0] == '+' && AllDigits(s[1..]) && DecimalValue(s[1..]) <= MaxInt64 ==>
      r == Some(DecimalValue(s[1..]))
    ensures |s| > 1 && s[0] == '-' && AllDigits(s[1..]) && DecimalValue(s[1..]) <= -MinInt64 ==>
      r == Some(-(DecimalValue(s[1..]) as int))
  {
    if s == [] then None
    else
      var negative := s[0] == '-';
      var digits := if s[0] == '+' || s[0] == '-' then s[1..] else s;
      if digits == [] || !AllDigits(digits) then None
      else
        var u: int := DecimalValue(digits);
        if negative && u > -MinInt64 then None
        else if !negative && u > MaxInt64 then None
        else Some(if negative then -u else u)
  }

  function DigitChar(d: int): (c: char)
    requires 0 <= d < 10
    ensures IsDigit(c) && c as int - '0' as int == d
  {
    ('0' as int + d) as char
  }

  /** The canonical decimal text of a natural number. */
  function Digits(n: nat): string
  {
    if n < 10 then [DigitChar(n)] else Digits(n / 10) + [DigitChar(n % 10)]
  }

  /** The canonical decimal text of an integer. */
  function Decimal(v: int): string
  {
    if v < 0 then "-" + Digits(-v) else Digits(v)
  }

  lemma {:induction false} DigitsValue(n: nat)
    ensures |Digits(n)| > 0 && AllDigits(Digits(n)) && DecimalValue(Digits(n)) == n
  {
    var ds := Digits(n);
    if n < 10 {
      assert ds[..0] == [];
    } else {
      DigitsValue(n / 10);
      assert ds[..|ds| - 1] == Digits(n / 10);
    }
  }

  /** Every signed 64-bit value is read back from its decimal text. */
  lemma ParseIntDecimal(v: int)
    requires MinInt64 <= v <= MaxInt64
    ensures ParseInt(Decimal(v)) == Some(v)
  {
    if v < 0 {
      DigitsValue(-v);
      assert Decimal(v)[1..] == Digits(-v);
    } else {
      DigitsValue(v);
    }
  }

  /** Why the arguments were refused. */
  datatype ParamError =
    | WrongArgumentCount
    | InvalidOrigin
    | InvalidDestination
    | InvalidDepartureDate
    | InvalidReturnDate
    | InvalidDayCount
    | TooManyDays

  /** The five inputs of a search. */
  datatype Config = Config(
    origin: string,
    destination: string,
    departureDate: string,
    returnDate: string,
    daysToQuery: int)

  datatype Checked = Accepted(config: Config) | Refused(error: ParamError)

  /**
   validateParameters on the program's arguments (`args[0]` is the program
   name): each airport code must be three bytes long, both dates must
   parse, and the day count must parse and be below 10. There is no lower
   bound on the day count. The first failing check decides the error.
   */
  function CheckParameters(args: seq<string>, isDate: string -> bool): (r: Checked)
    requires |args| >= 6
    ensures r.Accepted? <==>
      && Utf8Length(args[1]) == 3 && Utf8Length(args[2]) == 3
      && isDate(args[3]) && isDate(args[4])
      && ParseInt(args[5]).Some? && ParseInt(args[5]).value < 10
    ensures r.Accepted? ==> r.config == Config(args[1], args[2], args[3], args[4], ParseInt(args[5]).value)
    ensures r == Refused(InvalidOrigin) <==> Utf8Length(args[1]) != 3
    ensures r == Refused(InvalidDestination) <==> Utf8Length(args[1]) == 3 && Utf8Length(args[2]) != 3
    ensures r == Refused(InvalidDepartureDate) <==>
      Utf8Length(args[1]) == 3 && Utf8Length(args[2]) == 3 && !isDate(args[3])
    ensures r == Refused(InvalidReturnDate) <==>
      Utf8Length(args[1]) == 3 && Utf8Length(args[2]) == 3 && isDate(args[3]) && !isDate(args[4])
    ensures r == Refused(InvalidDayCount) <==>
      && Utf8Length(args[1]) == 3 && Utf8Length(args[2]) == 3 && isDate(args[3]) && isDate(args[4])
      && ParseInt(args[5]).None?
    ensures r == Refused(TooManyDays) <==>
      && Utf8Length(args[1]) == 3 && Utf8Length(args[2]) == 3 && isDate(args[3]) && isDate(args[4])
      && ParseInt(args[5]).Some? && ParseInt(args[5]).value >= 10
    ensures r != Refused(WrongArgumentCount)
  {
    if Utf8Length(args[1]) != 3 then Refused(InvalidOrigin)
    else if Utf8Length(args[2]) != 3 then Refused(InvalidDestination)
    else if !isDate(args[3]) then Refused(InvalidDepartureDate)
    else if !isDate(args[4]) then Refused(InvalidReturnDate)
    else
      var v := ParseInt(args[5]);
      if v.None? then Refused(InvalidDayCount)
      else if v.value >= 10 then Refused(TooManyDays)
      else Accepted(Config(args[1], args[2], args[3], args[4], v.value))
  }

  /** A day count of zero or below is accepted, and so is every count from 0 to 9. */
  lemma DayCountHasNoLowerBound(args: seq<string>, isDate: string -> bool, v: int)
    requires |args| >= 6 && MinInt64 <= v < 10
    requires Utf8Length(args[1]) == 3 && Utf8Length(args[2]) == 3 && isDate(args[3]) && isDate(args[4])
    requires args[5] == Decimal(v)
    ensures CheckParameters(args, isDate) == Accepted(Config(args[1], args[2], args[3], args[4], v))
  {
    ParseIntDecimal(v);
  }

  /** The package-level input variables and the checks that overwrite them. */
  class Globals {
    var departureDateStr: string
    var returnDateStr: string
    var originAirportCode: string
    var destinationAirportCode: string
    var daysToQuery: int

    function Current(): Config
      reads this
    {
      Config(originAirportCode, destinationAirportCode, departureDateStr, returnDateStr, daysToQuery)
    }

    /** The built-in defaults. */
    constructor ()
      ensures Current() == Config("EZE", "PUJ", "2022-09-10", "2022-09-20", 5)
    {
      departureDateStr := "2022-09-10";
      returnDateStr := "2022-09-20";
      originAirportCode := "EZE";
      destinationAirportCode := "PUJ";
      daysToQuery := 5;
    }

    /**
     validateParameters: each variable is overwritten with its argument just
     before that argument is checked, so on a failure the variables checked
     so far already hold the arguments; the day count is stored only when
     every check passed.
     */
    method ValidateParameters(args: seq<string>, isDate: string -> bool) returns (err: Option<ParamError>)
      requires |args| >= 6
      modifies this
      ensures err.None? <==> CheckParameters(args, isDate).Accepted?
      ensures err.Some? ==> CheckParameters(args, isDate) == Refused(err.value)
      ensures err.None? ==> Current() == CheckParameters(args, isDate).config
      ensures originAirportCode == args[1]
      ensures destinationAirportCode == if err == Some(InvalidOrigin) then old(destinationAirportCode) else args[2]
      ensures departureDateStr ==
        if err == Some(InvalidOrigin) || err == Some(InvalidDestination) then old(departureDateStr) else args[3]
      ensures returnDateStr ==
        if err == Some(InvalidOrigin) || err == Some(InvalidDestination) || err == Some(InvalidDepartureDate)
        then old(returnDateStr) else args[4]
      ensures err.Some? ==> daysToQuery == old(daysToQuery)
    {
      originAirportCode := args[1];
      if Utf8Length(originAirportCode) != 3 {
        return Some(InvalidOrigin);
      }
      destinationAirportCode := args[2];
      if Utf8Length(destinationAirportCode) != 3 {
        return Some(InvalidDestination);
      }
      departureDateStr := args[3];
      if !isDate(departureDateStr) {
        return Some(InvalidDepartureDate);
      }
      returnDateStr := args[4];
      if !isDate(returnDateStr) {
        return Some(InvalidReturnDate);
      }
      var v := ParseInt(args[5]);
      if v.None? {
        return Some(InvalidDayCount);
      }
      if v.value >= 10 {
        return Some(TooManyDays);
      }
      daysToQuery := v.value;
      return None;
    }

    /** The start of main: exactly five arguments after the program name, then validateParameters. */
    method ParseCommandLine(args: seq<string>, isDate: string -> bool) returns (err: Option<ParamError>)
      modifies this
      ensures |args| != 6 ==> err == Some(WrongArgumentCount) && Current() == old(Current())
      ensures |args| == 6 ==> (err.None? <==> CheckParameters(args, isDate).Accepted?)
      ensures |args| == 6 && err.Some? ==> CheckParameters(args, isDate) == Refused(err.value)
      ensures err.None? ==> |args| == 6 && Current() == CheckParameters(args, isDate).config
      ensures |args| == 6 ==> originAirportCode == args[1]
      ensures err.Some? ==> daysToQuery == old(daysToQuery)
    {
      if |args| != 6 {
        return Some(WrongArgumentCount);
      }
      err := ValidateParameters(args, isDate);
    }
  }
}
