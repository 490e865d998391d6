/**
 * The three-step mint wizard (components/MintFlow.tsx): configure the
 * duration, confirm, and the minted screen that hands the name and the
 * duration back to the root view.
 */
module MintFlow {
  import opened Wrappers
  import opened Strings

  /** What the owner line shows when no account address is known. */
  const UnknownAddress: string := "0x00...0000"

  /**
   * The owner line: the first six and the last four characters of the
   * address around "..."; a missing or empty address gives the placeholder.
   * A shorter address repeats characters, since both ends are taken from it.
   */
  function FormatAddress(addr: Option<string>): (r: string)
    ensures addr == None || addr == Some("") ==> r == UnknownAddress
    ensures addr.Some? && addr.value != "" ==>
      var a := addr.value; var head := Min(6, |a|); var tail := Min(4, |a|);
      |r| == head + 3 + tail && r[..head] == a[..head] && r[head..head + 3] == "..." && r[head + 3..] == a[|a| - tail..]
    ensures addr.Some? && |addr.value| >= 10 ==> |r| == 13
  {
    if addr == None || addr.value == "" then UnknownAddress
    else Slice(addr.value, 0, 6) + "..." + Slice(addr.value, -4, |addr.value|)
  }

  /** The unit after the duration: "Years" exactly when more than one year is chosen. */
  function YearWord(years: int): (r: string)
    ensures r == "Year" || r == "Years"
    ensures r == "Years" <==> years > 1
  {
    "Year" + if years > 1 then "s" else ""
  }

  /** The duration line: the number of years, a space, and the unit. */
  function DurationLabel(years: nat): (r: string)
    ensures |r| >= 6
    ensures r[|r| - 1] == 's' <==> years > 1
    ensures var n := |NatToString(years)|;
      n + 5 <= |r| && IsDigits(r[..n]) && DigitsValue(r[..n]) == years && r[n] == ' '
    ensures r[|NatToString(years)| + 1..] == YearWord(years)
  {
    NatToStringRoundTrip(years);
    var digits := NatToString(years);
    var r := digits + " " + YearWord(years);
    assert r[..|digits|] == digits && r[|digits| + 1..] == YearWord(years);
    r
  }

  /** The "-" button: one year fewer, but never below one. */
  function FewerYears(years: int): (r: int)
    ensures r >= 1
    ensures years > 1 ==> r == years - 1
    ensures years <= 1 ==> r == 1
  {
    Max(1, years - 1)
  }

  /** "-" undoes "+" on any valid duration, and "-" at one year stays at one. */
  lemma FewerUndoesMore(years: int)
    requires years >= 1
    ensures FewerYears(years + 1) == years
    ensures FewerYears(1) == 1
  {
  }

  class MintWizard {
    const domain: string
    var step: int
    var years: int
    var isMinting: bool

    /** Steps are 1, 2 and 3, the duration is at least a year, and minting happens only on step 2. */
    ghost predicate Valid()
      reads this
    {
      1 <= step <= 3 && years >= 1 && (isMinting ==> step == 2)
    }

    constructor (domain: string)
      ensures Valid()
      ensures this.domain == domain && step == 1 && years == 1 && !isMinting
    {
      this.domain := domain;
      step := 1;
      years := 1;
      isMinting := false;
    }

    /** The "-" button, shown on step 1. */
    method Decrement()
      requires Valid() && step == 1
      modifies this
      ensures Valid()
      ensures years == FewerYears(old(years)) && step == old(step) && isMinting == old(isMinting)
    {
      years := FewerYears(years);
    }

    /** The "+" button, shown on step 1. */
    method Increment()
      requires Valid() && step == 1
      modifies this
      ensures Valid()
      ensures years == old(years) + 1 && step == old(step) && isMinting == old(isMinting)
    {
      years := years + 1;
    }

    /** "Continue to payment", shown on step 1. */
    method Continue()
      requires Valid() && step == 1
      modifies this
      ensures Valid()
      ensures step == 2 && years == old(years) && isMinting == old(isMinting)
    {
      step := 2;
    }

    /** "Confirm & mint" on step 2, disabled while a mint is pending: start the mint timer. */
    method StartMint()
      requires Valid() && step == 2 && !isMinting
      modifies this
      ensures Valid()
      ensures isMinting && step == old(step) && years == old(years)
    {
      isMinting := true;
    }

    /** The mint timer fires: minting ends and the wizard moves to the minted screen. */
    method FireMintTimer()
      requires Valid() && isMinting
      modifies this
      ensures Valid()
      ensures !isMinting && step == 3 && step > old(step) && years == old(years)
    {
      isMinting := false;
      step := 3;
    }

    /** "View profile" on step 3: the name and the duration handed to the root view's completion. */
    method Completion() returns (name: string, chosenYears: int)
      requires Valid() && step == 3
      ensures name == domain && chosenYears == years && chosenYears >= 1
    {
      name, chosenYears := domain, years;
    }
  }
}
