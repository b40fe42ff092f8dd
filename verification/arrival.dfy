/**
 * The arrival times on the passenger's results screen (`updateArrivalTimes`):
 * each of the first three stops gets its base time in minutes shifted by a
 * random variation of -1, 0 or +1, never below one minute, and the text says
 * "minute" for one and "minutes" otherwise. `ParseArrival` reads the text
 * back and is the inverse of `ArrivalText`.
 */
module Arrival {
  import opened Wrappers
  import opened Text

  /** Base arrival times, in minutes, of the stops in display order. */
  const BaseTimes: seq<nat> := [3, 8, 15]

  /** `Math.floor(Math.random() * 3) - 1` for a random number `rand` in [0, 1). */
  function Variation(rand: real): (v: int)
    requires 0.0 <= rand < 1.0
    ensures -1 <= v <= 1
  {
    (rand * 3.0).Floor - 1
  }

  /** `Math.max(1, base + v)`. */
  function ArrivalMinutes(base: nat, v: int): (t: nat)
    requires -1 <= v <= 1
    ensures 1 <= t <= base + 1
    ensures t >= base + v
    ensures t == base + v || t == 1
  {
    if base + v < 1 then 1 else base + v
  }

  const Prefix := "Arrives in "
  const Singular := " minute"
  const Plural := " minutes"

  /** `Arrives in ${t} minute${t !== 1 ? 's' : ''}`. */
  function ArrivalText(t: nat): (r: string)
    ensures |r| > |Prefix| && r[..|Prefix|] == Prefix
    ensures r[|r| - 1] == 's' <==> t != 1
  {
    Prefix + NatToDecimal(t) + (if t != 1 then Plural else Singular)
  }

  function EndsWith(s: string, suffix: string): bool {
    |suffix| <= |s| && s[|s| - |suffix|..] == suffix
  }

  /**
   * Reads an arrival text back into its minute count. A numeral followed by the
   * wrong form of "minute" for its value is rejected.
   */
  function ParseArrival(r: string): Option<nat> {
    if |r| < |Prefix| || r[..|Prefix|] != Prefix then None
    else
      var rest := r[|Prefix|..];
      var plural := EndsWith(rest, Plural);
      if !plural && !EndsWith(rest, Singular) then None
      else
        var numeral := rest[..|rest| - if plural then |Plural| else |Singular|];
        if numeral == [] || !AllDigits(numeral) then None
        else
          var t := DecimalValue(numeral);
          if (t != 1) == plural then Some(t) else None
  }

  /** The text of a minute count reads back as that count. */
  lemma ParseArrivalText(t: nat)
    ensures ParseArrival(ArrivalText(t)) == Some(t)
  {
    var r := ArrivalText(t);
    var num := NatToDecimal(t);
    var suffix := if t != 1 then Plural else Singular;
    assert r[..|Prefix|] == Prefix;
    var rest := r[|Prefix|..];
    assert rest == num + suffix;
    DecimalRoundTrip(t);
    if t != 1 {
      assert rest[|rest| - |Plural|..] == Plural;
      assert rest[..|rest| - |Plural|] == num;
    } else {
      assert num == "1";
      assert rest == "1 minute";
      assert !EndsWith(rest, Plural);
      assert rest[|rest| - |Singular|..] == Singular;
      assert rest[..|rest| - |Singular|] == num;
    }
  }

  /**
   * The text a stop shows after one refresh: the stops with a (non-zero) base
   * time get a fresh text, any further element keeps its current text.
   */
  function RefreshedText(index: nat, current: string, rand: real): (r: string)
    requires 0.0 <= rand < 1.0
    ensures index >= |BaseTimes| ==> r == current
    ensures index < |BaseTimes| ==> |r| > |Prefix| && r[..|Prefix|] == Prefix
  {
    if index < |BaseTimes| && BaseTimes[index] != 0
    then ArrivalText(ArrivalMinutes(BaseTimes[index], Variation(rand)))
    else current
  }

  /**
   * What a refreshed stop text says: one of the stops with a base time shows
   * a minute count within one minute of its base and at least one; any other
   * element is left as it was.
   */
  lemma RefreshedTextBounds(index: nat, current: string, rand: real)
    requires 0.0 <= rand < 1.0
    ensures index >= |BaseTimes| ==> RefreshedText(index, current, rand) == current
    ensures index < |BaseTimes| ==>
      exists t: nat :: ParseArrival(RefreshedText(index, current, rand)) == Some(t)
        && 1 <= t && BaseTimes[index] - 1 <= t <= BaseTimes[index] + 1
  {
    if index < |BaseTimes| {
      var t := ArrivalMinutes(BaseTimes[index], Variation(rand));
      ParseArrivalText(t);
    }
  }

  /**
   * `stopItems.forEach(...)`: refreshes the arrival texts in place; `rands[i]`
   * is the random number drawn for element `i`.
   */
  method UpdateArrivalTimes(items: array<string>, rands: seq<real>)
    requires |rands| == items.Length
    requires forall i :: 0 <= i < |rands| ==> 0.0 <= rands[i] < 1.0
    modifies items
    ensures forall i :: 0 <= i < items.Length ==> items[i] == RefreshedText(i, old(items[i]), rands[i])
  {
    var index := 0;
    while index < items.Length
      invariant 0 <= index <= items.Length
      invariant forall i :: 0 <= i < index ==> items[i] == RefreshedText(i, old(items[i]), rands[i])
      invariant forall i :: index <= i < items.Length ==> items[i] == old(items[i])
    {
      if index < |BaseTimes| && BaseTimes[index] != 0 {
        var newTime := ArrivalMinutes(BaseTimes[index], Variation(rands[index]));
        items[index] := ArrivalText(newTime);
      }
      index := index + 1;
    }
  }
}
