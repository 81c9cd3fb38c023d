/** `dms_to_decimal`: the conversion of the fire catalogue's coordinates,
    written as `D°M'S" X`, to signed decimal degrees. */
module Dms {
  import opened Numerals
  import opened Readings

  /** A catalogue cell as pandas hands it over: text, or a number. */
  datatype Cell = Text(s: string) | Number(x: real)

  /** What one call yields: None, a number, or the ValueError that `float()`
      raises on a malformed seconds field. */
  datatype Conversion = NoMatch | Decimal(degrees: real) | Raises

  predicate IsSecondsChar(c: char) { IsDigit(c) || c == '.' }

  predicate AllSecondsChars(s: string) { forall i :: 0 <= i < |s| ==> IsSecondsChar(s[i]) }

  predicate IsCompass(c: char) { c == 'N' || c == 'S' || c == 'O' || c == 'E' || c == 'W' }

  /** The hemispheres that negate the value: south and west (`O` for oeste). */
  predicate IsNegative(c: char) { c == 'S' || c == 'O' || c == 'W' }

  /** Length of the longest prefix made of digits. */
  function DigitRun(s: string): (n: nat)
    ensures n <= |s| && AllDigits(s[..n])
    ensures n < |s| ==> !IsDigit(s[n])
  {
    if s != [] && IsDigit(s[0]) then
      var n := 1 + DigitRun(s[1..]);
      assert s[..n] == [s[0]] + s[1..][..n - 1];
      n
    else 0
  }

  /** Length of the longest prefix made of digits and dots. */
  function SecondsRun(s: string): (n: nat)
    ensures n <= |s| && AllSecondsChars(s[..n])
    ensures n < |s| ==> !IsSecondsChar(s[n])
  {
    if s != [] && IsSecondsChar(s[0]) then
      var n := 1 + SecondsRun(s[1..]);
      assert s[..n] == [s[0]] + s[1..][..n - 1];
      n
    else 0
  }

  /** The three groups and the hemisphere letter of a match. */
  datatype Fields = Fields(deg: string, min: string, sec: string, compass: char)

  predicate WellFormed(f: Fields)
  {
    f.deg != [] && AllDigits(f.deg) && f.min != [] && AllDigits(f.min)
    && f.sec != [] && AllSecondsChars(f.sec) && IsCompass(f.compass)
  }

  /** The text the pattern `(\d+)°(\d+)'([\d.]+)" ([NSOEW])` matches for these
      groups, built from the right as the matcher reads it from the left. */
  function SecondsText(sec: string, compass: char): string { sec + ['"', ' ', compass] }

  function MinutesText(min: string, sec: string, compass: char): string
  {
    min + (['\''] + SecondsText(sec, compass))
  }

  function Render(f: Fields): string
  {
    f.deg + (['°'] + MinutesText(f.min, f.sec, f.compass))
  }

  /** Gluing a matched prefix, one separator and a matched remainder. */
  lemma PrefixJoin(s: string, a: string, c: char, b: string)
    requires |a| < |s| && s[..|a|] == a && s[|a|] == c
    requires |b| <= |s[|a| + 1..]| && s[|a| + 1..][..|b|] == b
    ensures |a + ([c] + b)| <= |s| && s[..|a| + 1 + |b|] == a + ([c] + b)
  {
    forall i | 0 <= i < |a| + 1 + |b|
      ensures s[i] == (a + ([c] + b))[i]
    {
      if i < |a| {
        assert s[..|a|][i] == s[i];
      } else if i > |a| {
        assert s[|a| + 1..][i - |a| - 1] == s[i];
      }
    }
  }

  /** `([\d.]+)" ([NSOEW])` at the start of r. */
  function MatchSeconds(r: string): (o: Option<(string, char)>)
    ensures o.Some? ==>
              o.value.0 != [] && AllSecondsChars(o.value.0) && IsCompass(o.value.1)
              && |SecondsText(o.value.0, o.value.1)| <= |r|
              && r[..|SecondsText(o.value.0, o.value.1)|] == SecondsText(o.value.0, o.value.1)
  {
    var n := SecondsRun(r);
    if n == 0 || |r| < n + 3 || r[n] != '"' || r[n + 1] != ' ' || !IsCompass(r[n + 2]) then None
    else
      assert r[..n + 3] == r[..n] + ['"', ' ', r[n + 2]];
      Some((r[..n], r[n + 2]))
  }

  /** `(\d+)'` followed by the seconds at the start of r. */
  function MatchMinutes(r: string): (o: Option<(string, string, char)>)
    ensures o.Some? ==>
              o.value.0 != [] && AllDigits(o.value.0) && o.value.1 != [] && AllSecondsChars(o.value.1)
              && IsCompass(o.value.2)
              && |MinutesText(o.value.0, o.value.1, o.value.2)| <= |r|
              && r[..|MinutesText(o.value.0, o.value.1, o.value.2)|] == MinutesText(o.value.0, o.value.1, o.value.2)
  {
    var m := DigitRun(r);
    if m == 0 || m == |r| || r[m] != '\'' then None
    else
      match MatchSeconds(r[m + 1..])
      case None => None
      case Some((sec, compass)) =>
        PrefixJoin(r, r[..m], '\'', SecondsText(sec, compass));
        Some((r[..m], sec, compass))
  }

  /** `re.match` of the whole pattern: anchored at the start, trailing text
      ignored. Each group is followed by a character it cannot contain, so the
      longest run is the only way to match it. */
  function MatchDms(s: string): (o: Option<Fields>)
    ensures o.Some? ==> WellFormed(o.value) && |Render(o.value)| <= |s| && s[..|Render(o.value)|] == Render(o.value)
  {
    var d := DigitRun(s);
    if d == 0 || d == |s| || s[d] != '°' then None
    else
      match MatchMinutes(s[d + 1..])
      case None => None
      case Some((min, sec, compass)) =>
        PrefixJoin(s, s[..d], '°', MinutesText(min, sec, compass));
        Some(Fields(s[..d], min, sec, compass))
  }

  lemma DigitRunStops(p: string, t: string)
    requires AllDigits(p) && t != [] && !IsDigit(t[0])
    ensures DigitRun(p + t) == |p|
  {
    assert (p + t)[|p|] == t[0];
  }

  lemma SecondsRunStops(p: string, t: string)
    requires AllSecondsChars(p) && t != [] && !IsSecondsChar(t[0])
    ensures SecondsRun(p + t) == |p|
  {
    assert (p + t)[|p|] == t[0];
  }

  lemma MatchSecondsComplete(sec: string, compass: char, rest: string)
    requires sec != [] && AllSecondsChars(sec) && IsCompass(compass)
    ensures MatchSeconds(SecondsText(sec, compass) + rest) == Some((sec, compass))
  {
    var r := SecondsText(sec, compass) + rest;
    assert r == sec + (['"', ' ', compass] + rest);
    SecondsRunStops(sec, ['"', ' ', compass] + rest);
    assert r[..|sec|] == sec;
  }

  lemma MatchMinutesComplete(min: string, sec: string, compass: char, rest: string)
    requires min != [] && AllDigits(min) && sec != [] && AllSecondsChars(sec) && IsCompass(compass)
    ensures MatchMinutes(MinutesText(min, sec, compass) + rest) == Some((min, sec, compass))
  {
    var r := MinutesText(min, sec, compass) + rest;
    assert r == min + (['\''] + (SecondsText(sec, compass) + rest));
    DigitRunStops(min, ['\''] + (SecondsText(sec, compass) + rest));
    assert r[..|min|] == min;
    assert r[|min| + 1..] == SecondsText(sec, compass) + rest;
    MatchSecondsComplete(sec, compass, rest);
  }

  /** Conversely, every string that starts with a rendering of well-formed
      groups matches, with exactly those groups. */
  lemma MatchDmsComplete(f: Fields, rest: string)
    requires WellFormed(f)
    ensures MatchDms(Render(f) + rest) == Some(f)
  {
    var s := Render(f) + rest;
    assert s == f.deg + (['°'] + (MinutesText(f.min, f.sec, f.compass) + rest));
    DigitRunStops(f.deg, ['°'] + (MinutesText(f.min, f.sec, f.compass) + rest));
    assert s[..|f.deg|] == f.deg;
    assert s[|f.deg| + 1..] == MinutesText(f.min, f.sec, f.compass) + rest;
    MatchMinutesComplete(f.min, f.sec, f.compass, rest);
  }

  function Pow10(n: nat): (p: real)
    ensures p >= 1.0
  {
    if n == 0 then 1.0 else 10.0 * Pow10(n - 1)
  }

  /** The value of the digits after a decimal dot. */
  function Fraction(digits: string): (x: real)
    requires AllDigits(digits)
    ensures 0.0 <= x
  {
    DigitsValue(digits) as real / Pow10(|digits|)
  }

  function CountDots(s: string): nat
  {
    if s == [] then 0 else (if s[0] == '.' then 1 else 0) + CountDots(s[1..])
  }

  lemma {:induction false} CountDotsAppend(a: string, b: string)
    ensures CountDots(a + b) == CountDots(a) + CountDots(b)
  {
    if a != [] {
      assert (a + b)[0] == a[0];
      assert (a + b)[1..] == a[1..] + b;
      CountDotsAppend(a[1..], b);
    } else {
      assert a + b == b;
    }
  }

  lemma {:induction false} NoDotsInDigits(s: string)
    requires AllDigits(s)
    ensures CountDots(s) == 0
  {
    if s != [] {
      NoDotsInDigits(s[1..]);
    }
  }

  lemma {:induction false} DotInNonDigits(s: string)
    requires AllSecondsChars(s) && !AllDigits(s)
    ensures CountDots(s) >= 1
  {
    if s[0] != '.' {
      DotInNonDigits(s[1..]);
    }
  }

  /** Python's `float()` on a string of digits and dots; None stands for the
      ValueError it raises. */
  function FloatValue(t: string): (r: Option<real>)
    requires AllSecondsChars(t)
    ensures AllDigits(t) && t != [] ==> r == Some(DigitsValue(t) as real)
  {
    var i := DigitRun(t);
    if i == |t| then
      assert t[..i] == t;
      if t == [] then None else Some(DigitsValue(t) as real)
    else
      assert forall k :: i + 1 <= k < |t| ==> t[i + 1..][k - i - 1] == t[k];
      FloatParts(t[..i], t[i + 1..])
  }

  /** `float()` of the digits `whole` before the first dot and the text
      `frac` after it: the fraction must be digits only, and the two may not
      both be empty. */
  function FloatParts(whole: string, frac: string): Option<real>
    requires AllDigits(whole) && AllSecondsChars(frac)
  {
    if !AllDigits(frac) || (whole == [] && frac == []) then None
    else Some(DigitsValue(whole) as real + Fraction(frac))
  }

  /** `float()` accepts exactly the strings with at most one dot and at least
      one digit. */
  lemma {:induction false} FloatValueDefined(t: string)
    requires AllSecondsChars(t)
    ensures FloatValue(t).Some? <==> CountDots(t) <= 1 && CountDots(t) < |t|
  {
    var i := DigitRun(t);
    CountDotsAppend(t[..i], t[i..]);
    assert t[..i] + t[i..] == t;
    NoDotsInDigits(t[..i]);
    if i < |t| {
      var frac := t[i + 1..];
      assert t[i] == '.';
      assert t[i..] == [t[i]] + frac;
      CountDotsAppend([t[i]], frac);
      assert [t[i]][1..] == [];
      assert CountDots([t[i]]) == 1;
      if AllDigits(frac) {
        NoDotsInDigits(frac);
      } else {
        DotInNonDigits(frac);
      }
    }
  }

  /** `float()` of a group with one dot: the digits before it are the whole
      part (none reads as 0) and the digits after it the fraction. */
  lemma FloatValueDecimal(a: string, b: string)
    requires AllDigits(a) && AllDigits(b) && a + b != []
    ensures AllSecondsChars(a + "." + b)
    ensures FloatValue(a + "." + b) == Some(DigitsValue(a) as real + Fraction(b))
  {
    var t := a + (['.'] + b);
    assert a + "." + b == t;
    assert forall k :: 0 <= k < |t| ==> IsSecondsChar(t[k]) by {
      forall k | 0 <= k < |t| ensures IsSecondsChar(t[k]) {
        if k < |a| { assert t[k] == a[k]; } else if k > |a| { assert t[k] == b[k - |a| - 1]; }
      }
    }
    DigitRunStops(a, ['.'] + b);
    var i := DigitRun(t);
    assert i == |a| < |t|;
    assert t[..i] == a;
    assert t[i + 1..] == b;
    assert FloatValue(t) == FloatParts(a, b);
  }

  /** A non-empty seconds group makes `float()` raise exactly when it has two
      or more dots or is a lone dot. */
  lemma SecondsRaise(sec: string)
    requires sec != [] && AllSecondsChars(sec)
    ensures FloatValue(sec).None? <==> CountDots(sec) >= 2 || sec == "."
  {
    FloatValueDefined(sec);
    if |sec| == 1 {
      assert sec[1..] == [];
      assert CountDots(sec) == (if sec[0] == '.' then 1 else 0);
      assert sec == "." <==> sec[0] == '.';
    }
  }

  /** `dms_to_decimal` on one cell, after `dms.strip()`: anything but text,
      and text the pattern does not match, give None; a matched seconds group
      that `float()` rejects raises. */
  function DmsToDecimal(c: Cell): (r: Conversion)
    ensures r.NoMatch? <==> c.Number? || MatchDms(Strip(c.s)).None?
    ensures r.Raises? <==> c.Text? && MatchDms(Strip(c.s)).Some?
                           && (CountDots(MatchDms(Strip(c.s)).value.sec) >= 2 || MatchDms(Strip(c.s)).value.sec == ".")
  {
    match c
    case Number(_) => NoMatch
    case Text(s) =>
      match MatchDms(Strip(s))
      case None => NoMatch
      case Some(f) =>
        SecondsRaise(f.sec);
        ConvertFields(f)
  }

  /** The conversion once the pattern matched: `float()` of the seconds group
      may raise; otherwise degrees + minutes/60 + seconds/3600, negated in the
      southern and western hemispheres. */
  function ConvertFields(f: Fields): Conversion
    requires WellFormed(f)
  {
    match FloatValue(f.sec)
    case None => Raises
    case Some(sec) => Decimal(Signed(f.compass, DigitsValue(f.deg) as real, DigitsValue(f.min) as real, sec))
  }

  /** The coordinate text with whole seconds, as the catalogue writes it. */
  function RenderDms(deg: nat, min: nat, sec: nat, compass: char): string
  {
    Render(Fields(NatToString(deg), NatToString(min), NatToString(sec), compass))
  }

  /** The coordinate text with decimal seconds `sec.frac`. */
  function RenderDecimalDms(deg: nat, min: nat, sec: nat, frac: string, compass: char): string
  {
    Render(Fields(NatToString(deg), NatToString(min), NatToString(sec) + "." + frac, compass))
  }

  /** The first and last characters of a rendering: a digit and the hemisphere letter. */
  lemma RenderEnds(f: Fields)
    requires WellFormed(f)
    ensures var body := Render(f); body != [] && body[0] == f.deg[0] && body[|body| - 1] == f.compass
  {
  }

  function Signed(compass: char, deg: real, min: real, sec: real): real
  {
    var dec := deg + min / 60.0 + sec / 3600.0;
    if IsNegative(compass) then -dec else dec
  }

  /** The value of a cell whose stripped text matched with these groups. */
  lemma ConvertMatched(s: string, f: Fields, x: real)
    requires MatchDms(Strip(s)) == Some(f) && FloatValue(f.sec) == Some(x)
    ensures DmsToDecimal(Text(s)) == Decimal(Signed(f.compass, DigitsValue(f.deg) as real, DigitsValue(f.min) as real, x))
  {
  }

  /** The stripped text of a rendering padded with whitespace in front and
      arbitrary text behind matches with the rendered groups. */
  lemma MatchPadded(lead: string, f: Fields, tail: string)
    requires AllSpace(lead) && WellFormed(f)
    ensures MatchDms(Strip(lead + Render(f) + tail)) == Some(f)
  {
    var body := Render(f);
    RenderEnds(f);
    StripAround(lead, body, tail);
    var k :| 0 <= k <= |tail| && Strip(lead + body + tail) == body + tail[..k];
    MatchDmsComplete(f, tail[..k]);
  }

  /** A rendering of well-formed groups, padded with whitespace in front and
      any text behind, converts with the values of its groups. */
  lemma ConvertRendered(lead: string, f: Fields, tail: string, x: real)
    requires AllSpace(lead) && WellFormed(f) && FloatValue(f.sec) == Some(x)
    ensures DmsToDecimal(Text(lead + Render(f) + tail))
              == Decimal(Signed(f.compass, DigitsValue(f.deg) as real, DigitsValue(f.min) as real, x))
  {
    MatchPadded(lead, f, tail);
    ConvertMatched(lead + Render(f) + tail, f, x);
  }

  /** Round trip: surrounding whitespace stripped and trailing text ignored,
      the rendering of D, M, S and X converts back to D + M/60 + S/3600,
      negated exactly in the southern and western hemispheres. */
  lemma {:induction false} DmsRoundTrip(lead: string, deg: nat, min: nat, sec: nat, compass: char, tail: string)
    requires AllSpace(lead) && IsCompass(compass)
    ensures DmsToDecimal(Text(lead + RenderDms(deg, min, sec, compass) + tail))
              == Decimal(Signed(compass, deg as real, min as real, sec as real))
  {
    var f := Fields(NatToString(deg), NatToString(min), NatToString(sec), compass);
    assert FloatValue(f.sec) == Some(sec as real);
    ConvertRendered(lead, f, tail, sec as real);
  }

  /** The same round trip with decimal seconds: `S.F` converts with S plus
      the fraction F. */
  lemma {:induction false} DmsDecimalRoundTrip(lead: string, deg: nat, min: nat, sec: nat, frac: string,
                                               compass: char, tail: string)
    requires AllSpace(lead) && IsCompass(compass) && AllDigits(frac)
    ensures DmsToDecimal(Text(lead + RenderDecimalDms(deg, min, sec, frac, compass) + tail))
              == Decimal(Signed(compass, deg as real, min as real, sec as real + Fraction(frac)))
  {
    FloatValueDecimal(NatToString(sec), frac);
    var f := Fields(NatToString(deg), NatToString(min), NatToString(sec) + "." + frac, compass);
    assert WellFormed(f);
    ConvertRendered(lead, f, tail, sec as real + Fraction(frac));
  }

  /** A seconds field with more than one dot (such as `1.2.3`) still matches
      the pattern, but `float()` raises on it. */
  lemma MalformedSecondsRaise(lead: string, f: Fields, tail: string)
    requires AllSpace(lead) && WellFormed(f) && CountDots(f.sec) >= 2
    ensures DmsToDecimal(Text(lead + Render(f) + tail)) == Raises
  {
    MatchPadded(lead, f, tail);
    FloatValueDefined(f.sec);
  }
}
