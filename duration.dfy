/** `formatDuration` of the client (public/js/script.js:148-153): the hours and
    minutes of an ISO 8601 duration with designators (section 4.4.3.2 of
    ISO 8601:2004), found with the pattern `/PT(\d+H)?(\d+M)?/`. */
module Duration {
  import opened Common
  import opened Text

  /** "PT" stands at position `i` of `s`. */
  predicate PTAt(s: string, i: nat) {
    i + 1 < |s| && s[i] == 'P' && s[i + 1] == 'T'
  }

  /** The first position at or after `from` where "PT" stands: where the
      pattern, whose groups are both optional, matches. */
  function FindPT(s: string, from: nat): (r: Option<nat>)
    ensures r.Some? ==> from <= r.value && PTAt(s, r.value)
    ensures r.Some? ==> forall k :: from <= k < r.value ==> !PTAt(s, k)
    ensures r.None? ==> forall k :: from <= k ==> !PTAt(s, k)
    decreases |s| - from
  {
    if from + 1 >= |s| then None
    else if PTAt(s, from) then Some(from)
    else FindPT(s, from + 1)
  }

  /** Length of the run of digits of `s` starting at `i`. */
  function DigitRun(s: string, i: nat): (n: nat)
    requires i <= |s|
    ensures i + n <= |s|
    ensures forall k :: i <= k < i + n ==> IsDigit(s[k])
    ensures i + n < |s| ==> !IsDigit(s[i + n])
    decreases |s| - i
  {
    if i < |s| && IsDigit(s[i]) then 1 + DigitRun(s, i + 1) else 0
  }

  /** The optional group `(\d+X)` at position `i`: the digits before the
      designator `X`, if the digits at `i` are followed by it. Backtracking into
      a shorter run cannot help, since a digit then follows it. */
  function Group(s: string, i: nat, designator: char): (r: Option<string>)
    requires i <= |s|
    ensures r.Some? ==> r.value != [] && AllDigits(r.value) && i + |r.value| < |s|
    ensures r.Some? ==> r.value == s[i..i + |r.value|] && s[i + |r.value|] == designator
  {
    var n := DigitRun(s, i);
    if n > 0 && i + n < |s| && s[i + n] == designator then Some(s[i..i + n]) else None
  }

  function OrZero(g: Option<string>): string {
    if g.Some? then g.value else "0"
  }

  /** Group 1 of a match at `p`: the hours. */
  function Hours(s: string, p: nat): Option<string>
    requires PTAt(s, p)
  {
    Group(s, p + 2, 'H')
  }

  /** Group 2 of a match at `p`: the minutes, right after the hours if they matched. */
  function Minutes(s: string, p: nat): Option<string>
    requires PTAt(s, p)
  {
    var h := Hours(s, p);
    Group(s, if h.Some? then p + 3 + |h.value| else p + 2, 'M')
  }

  /** `${hours}h ${minutes}m`, each "0" when its group did not match: always
      two non-empty digit strings with their units. */
  function FormatDuration(iso: string): (r: string)
    ensures exists h, m ::
              && h != [] && AllDigits(h) && m != [] && AllDigits(m)
              && r == h + "h " + m + "m"
  {
    match FindPT(iso, 0)
    case None =>
      OrZeroDigits(None);
      "0h 0m"
    case Some(p) =>
      var h := OrZero(Hours(iso, p));
      var m := OrZero(Minutes(iso, p));
      OrZeroDigits(Hours(iso, p));
      OrZeroDigits(Minutes(iso, p));
      h + "h " + m + "m"
  }

  /** A digit run followed by a non-digit is exactly as long as those digits. */
  lemma DigitRunOf(s: string, i: nat, d: string)
    requires i + |d| < |s| && s[i..i + |d|] == d && AllDigits(d) && !IsDigit(s[i + |d|])
    ensures DigitRun(s, i) == |d|
  {
  }

  /** An empty run of digits at `i` means the group is absent. */
  lemma NoGroupWithoutDigit(s: string, i: nat, designator: char)
    requires i <= |s| && (i < |s| ==> !IsDigit(s[i]))
    ensures Group(s, i, designator).None?
  {
  }

  /** The group of `d` followed by its designator is `d`. */
  lemma GroupOf(s: string, i: nat, d: string, designator: char)
    requires d != [] && AllDigits(d) && !IsDigit(designator)
    requires i + |d| < |s| && s[i..i + |d|] == d && s[i + |d|] == designator
    ensures Group(s, i, designator) == Some(d)
  {
    DigitRunOf(s, i, d);
  }

  /** "PT{h}H{m}M" renders as "{h}h {m}m". */
  lemma HoursAndMinutes(h: string, m: string)
    requires h != [] && AllDigits(h) && m != [] && AllDigits(m)
    ensures FormatDuration("PT" + h + "H" + m + "M") == h + "h " + m + "m"
  {
    var a := "PT" + h + "H";
    var s := a + m + "M";
    assert s == "PT" + h + "H" + m + "M";
    assert s[0] == 'P' && s[1] == 'T';
    assert FindPT(s, 0) == Some(0);
    assert s[2..2 + |h|] == a[2..2 + |h|] == h;
    assert s[2 + |h|] == 'H';
    GroupOf(s, 2, h, 'H');
    assert s[|a|..|a| + |m|] == m && s[|a| + |m|] == 'M';
    GroupOf(s, |a|, m, 'M');
  }

  /** "PT{h}H" renders as "{h}h 0m". */
  lemma HoursOnly(h: string)
    requires h != [] && AllDigits(h)
    ensures FormatDuration("PT" + h + "H") == h + "h 0m"
  {
    var s := "PT" + h + "H";
    assert s[0] == 'P' && s[1] == 'T';
    assert FindPT(s, 0) == Some(0);
    assert s[2..2 + |h|] == h && s[2 + |h|] == 'H';
    GroupOf(s, 2, h, 'H');
    NoGroupWithoutDigit(s, 3 + |h|, 'M');
    assert FormatDuration(s) == OrZero(Some(h)) + "h " + OrZero(None) + "m";
  }

  /** "PT{m}M" renders as "0h {m}m": the hours group does not match digits that end in M. */
  lemma MinutesOnly(m: string)
    requires m != [] && AllDigits(m)
    ensures FormatDuration("PT" + m + "M") == "0h " + m + "m"
  {
    var s := "PT" + m + "M";
    assert s[0] == 'P' && s[1] == 'T';
    assert FindPT(s, 0) == Some(0);
    assert s[2..2 + |m|] == m && s[2 + |m|] == 'M';
    DigitRunOf(s, 2, m);
    assert Group(s, 2, 'H').None?;
    GroupOf(s, 2, m, 'M');
    assert FormatDuration(s) == OrZero(None) + "h " + OrZero(Some(m)) + "m";
  }

  /** A duration in seconds only renders as "0h 0m". */
  lemma SecondsOnly(sec: string)
    requires sec != [] && AllDigits(sec)
    ensures FormatDuration("PT" + sec + "S") == "0h 0m"
  {
    var s := "PT" + sec + "S";
    assert s[0] == 'P' && s[1] == 'T';
    assert FindPT(s, 0) == Some(0);
    assert s[2..2 + |sec|] == sec && s[2 + |sec|] == 'S';
    DigitRunOf(s, 2, sec);
    assert Hours(s, 0).None? && Minutes(s, 0).None?;
  }

  /** Text without "PT" anywhere, such as the day-bearing "P1DT2H", renders as "0h 0m". */
  lemma NoTimePart(s: string)
    requires forall k :: 0 <= k < |s| - 1 ==> !(s[k] == 'P' && s[k + 1] == 'T')
    ensures FormatDuration(s) == "0h 0m"
  {
  }

  lemma DayBearingExample()
    ensures FormatDuration("P1DT2H") == "0h 0m"
  {
    NoTimePart("P1DT2H");
  }

  lemma OrZeroDigits(g: Option<string>)
    requires g.Some? ==> g.value != [] && AllDigits(g.value)
    ensures OrZero(g) != [] && AllDigits(OrZero(g))
  {
  }

}
