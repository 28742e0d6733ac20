/** The "lat,lng" pinpoint text of a location. Both the server's
    `parseCoordinates` and the client's fallback in `fetchWeatherForOuting`
    trim the text and match it against `^(-?\d+\.?\d*)\s*,\s*(-?\d+\.?\d*)$`;
    only the server then checks the ranges. */
module Coordinates {
  import opened Common
  import opened Text

  /** The text after an optional leading minus sign. */
  function Magnitude(x: string): (y: string)
    ensures |x| > 0 && x[0] == '-' ==> y == x[1..]
    ensures !(|x| > 0 && x[0] == '-') ==> y == x
  {
    if |x| > 0 && x[0] == '-' then x[1..] else x
  }

  /** A text matched by `\d+\.?\d*`: one digit or more, then either the
      end or a point followed by digits only. */
  predicate IsUnsigned(y: string) {
    var w := DigitEnd(y, 0);
    0 < w && (w == |y| || (y[w] == '.' && DigitEnd(y, w + 1) == |y|))
  }

  /** A text matched by `-?\d+\.?\d*`. */
  predicate IsNumeral(x: string) {
    IsUnsigned(Magnitude(x))
  }

  /** The characters a numeral can hold. */
  predicate NumeralChar(c: char) {
    c == '-' || c == '.' || IsDigit(c)
  }

  lemma NumeralChars(x: string)
    requires IsNumeral(x)
    ensures |x| > 0 && (IsDigit(x[|x| - 1]) || x[|x| - 1] == '.')
    ensures forall i :: 0 <= i < |x| ==> NumeralChar(x[i])
  {
    var y := Magnitude(x);
    var w := DigitEnd(y, 0);
    assert x[|x| - 1] == y[|y| - 1];
    forall i | 0 <= i < |x| ensures NumeralChar(x[i]) {
      if i > 0 || x[0] != '-' {
        assert x[i] == y[i - (|x| - |y|)];
      }
    }
  }

  /** The digits after the point, empty when there is no point. */
  function Fraction(y: string, w: nat): (f: string)
    requires w <= |y|
  {
    if w < |y| then y[w + 1..] else []
  }

  /** `v` divided by ten `places` times. */
  function Shift(v: real, places: nat): real {
    if places == 0 then v else Shift(v, places - 1) / 10.0
  }

  /** What `parseFloat` gives for an unsigned numeral, as an exact real: the
      whole digits plus the digits after the point shifted right by their
      count. */
  function UnsignedValue(y: string): real
    requires IsUnsigned(y)
  {
    var w := DigitEnd(y, 0);
    var f := Fraction(y, w);
    assert AllDigits(f) by {
      forall i | 0 <= i < |f| ensures IsDigit(f[i]) {
        assert f[i] == y[w + 1 + i];
      }
    }
    DigitsValue(y[..w]) as real + Shift(DigitsValue(f) as real, |f|)
  }

  function Signed(negative: bool, v: real): real {
    if negative then -v else v
  }

  /** What `parseFloat` gives for a numeral: negated under a minus sign. */
  function NumeralValue(x: string): real
    requires IsNumeral(x)
  {
    Signed(|x| > 0 && x[0] == '-', UnsignedValue(Magnitude(x)))
  }

  /** A minus sign or nothing. */
  function Sign(negative: bool): string {
    if negative then "-" else ""
  }

  /** A sign in front of an unsigned numeral negates its value. */
  lemma SignedNumeral(negative: bool, y: string)
    requires IsUnsigned(y)
    ensures IsNumeral(Sign(negative) + y)
    ensures NumeralValue(Sign(negative) + y) == Signed(negative, UnsignedValue(y))
  {
    var x := Sign(negative) + y;
    assert IsDigit(y[0]);
    if negative { assert x[0] == '-' && x[1..] == y; } else { assert x == y; }
  }

  /** `parseFloat` of digits without a point is their value. */
  lemma WholeValue(whole: string)
    requires whole != [] && AllDigits(whole)
    ensures IsUnsigned(whole) && UnsignedValue(whole) == DigitsValue(whole) as real
  {
    DigitEndOf([], whole, []);
    assert [] + whole + [] == whole;
    assert whole[..|whole|] == whole;
  }

  /** `parseFloat` of digits, a point and digits. */
  lemma PointValue(whole: string, frac: string)
    requires whole != [] && AllDigits(whole) && AllDigits(frac)
    ensures IsUnsigned(whole + "." + frac)
    ensures UnsignedValue(whole + "." + frac)
            == DigitsValue(whole) as real + Shift(DigitsValue(frac) as real, |frac|)
  {
    var y := whole + "." + frac;
    var w := |whole|;
    DigitEndOf([], whole, "." + frac);
    DigitEndOf(whole + ".", frac, []);
    assert [] + whole + ("." + frac) == y && whole + "." + frac + [] == y;
    assert y[..w] == whole && y[w] == '.' && y[w + 1..] == frac;
  }

  /** The parts of a text matched by the whole pattern: the latitude, the
      white space before the comma, the white space after it and the
      longitude. */
  datatype PairMatch = PairMatch(lat: string, before: string, after: string, lng: string)

  predicate WellFormedMatch(m: PairMatch) {
    IsNumeral(m.lat) && AllSpace(m.before) && AllSpace(m.after) && IsNumeral(m.lng)
  }

  function MatchText(m: PairMatch): string {
    m.lat + m.before + "," + m.after + m.lng
  }

  /** Cutting a text at four positions, the middle one a comma, and
      joining the pieces gives the text back. */
  lemma Pieces(t: string, b: nat, c: nat, a: nat)
    requires b <= c < a <= |t| && t[c] == ','
    ensures t[..b] + t[b..c] + "," + t[c + 1..a] + t[a..] == t
  {
    assert t[..b] + t[b..c] == t[..c];
    assert t[c + 1..a] + t[a..] == t[c + 1..];
    assert t == t[..c] + [t[c]] + t[c + 1..];
  }

  /** The groups, once the comma and the white space on either side of it
      are found: both sides must be numerals. */
  function Groups(t: string, b: nat, c: nat, a: nat): (r: Option<PairMatch>)
    requires b <= c < a <= |t| && t[c] == ','
    requires forall k :: b <= k < c ==> IsSpace(t[k])
    requires forall k :: c < k < a ==> IsSpace(t[k])
    ensures r.Some? ==> WellFormedMatch(r.value) && MatchText(r.value) == t
  {
    Pieces(t, b, c, a);
    var m := PairMatch(t[..b], t[b..c], t[c + 1..a], t[a..]);
    if IsNumeral(m.lat) && IsNumeral(m.lng) then Some(m) else None
  }

  function MatchFrom(t: string, i: nat): (r: Option<PairMatch>)
    requires i <= |t|
    ensures r.Some? ==> WellFormedMatch(r.value) && MatchText(r.value) == t
    decreases |t| - i
  {
    if i == |t| then None
    else if t[i] == ',' then Groups(t, SpaceStart(t, i), i, SpaceEnd(t, i + 1))
    else MatchFrom(t, i + 1)
  }

  function MatchPair(t: string): (r: Option<PairMatch>)
    ensures r.Some? ==> WellFormedMatch(r.value) && MatchText(r.value) == t
  {
    MatchFrom(t, 0)
  }

  lemma {:induction false} MatchFromAt(t: string, i: nat, c: nat)
    requires i <= c < |t| && t[c] == ',' && forall k :: i <= k < c ==> t[k] != ','
    ensures MatchFrom(t, i) == Groups(t, SpaceStart(t, c), c, SpaceEnd(t, c + 1))
    decreases c - i
  {
    if i < c { MatchFromAt(t, i + 1, c); }
  }

  /** In the text of a match, the only comma is the one between the groups. */
  lemma MatchComma(m: PairMatch)
    requires WellFormedMatch(m)
    ensures var t, c := MatchText(m), |m.lat| + |m.before|;
            c < |t| && MatchPair(t) == Groups(t, SpaceStart(t, c), c, SpaceEnd(t, c + 1))
  {
    var t := MatchText(m);
    var b := |m.lat|;
    var c := b + |m.before|;
    NumeralChars(m.lat);
    assert t[c] == ',';
    forall k | 0 <= k < c ensures t[k] != ',' {
      if k < b { assert t[k] == m.lat[k]; } else { assert t[k] == m.before[k - b]; }
    }
    MatchFromAt(t, 0, c);
  }

  /** The white space before the comma starts where the latitude ends. */
  lemma MatchBefore(m: PairMatch)
    requires WellFormedMatch(m)
    ensures SpaceStart(MatchText(m), |m.lat| + |m.before|) == |m.lat|
  {
    var t := MatchText(m);
    var b := |m.lat|;
    var c := b + |m.before|;
    NumeralChars(m.lat);
    forall k | b <= k < c ensures IsSpace(t[k]) { assert t[k] == m.before[k - b]; }
    assert t[b - 1] == m.lat[b - 1];
    SpaceStartAt(t, b, c);
  }

  /** The white space after the comma ends where the longitude starts. */
  lemma MatchAfter(m: PairMatch)
    requires WellFormedMatch(m)
    ensures var c := |m.lat| + |m.before|;
            SpaceEnd(MatchText(m), c + 1) == c + 1 + |m.after|
  {
    var t := MatchText(m);
    var c := |m.lat| + |m.before|;
    var a := c + 1 + |m.after|;
    NumeralChars(m.lng);
    forall k | c + 1 <= k < a ensures IsSpace(t[k]) { assert t[k] == m.after[k - c - 1]; }
    assert t[a] == m.lng[0];
    SpaceEndAt(t, c + 1, a);
  }

  /** In the text of a match, the comma and the white space around it are
      where the parts put them. */
  lemma MatchLayout(m: PairMatch)
    requires WellFormedMatch(m)
    ensures var t, b := MatchText(m), |m.lat|;
            var c := b + |m.before|;
            var a := c + 1 + |m.after|;
            a <= |t| && MatchPair(t) == Groups(t, b, c, a)
  {
    MatchComma(m);
    MatchBefore(m);
    MatchAfter(m);
  }

  /** Cut at those places, the text of a match gives back its parts. */
  lemma MatchGroups(m: PairMatch)
    requires WellFormedMatch(m)
    ensures var t, b := MatchText(m), |m.lat|;
            var c := b + |m.before|;
            var a := c + 1 + |m.after|;
            a <= |t| && Groups(t, b, c, a) == Some(m)
  {
    MatchSlices(m);
  }

  /** Every well-formed match is found in its own text, with the same parts:
      the pattern accepts exactly the texts `MatchText` spells. */
  lemma MatchPairText(m: PairMatch)
    requires WellFormedMatch(m)
    ensures MatchPair(MatchText(m)) == Some(m)
  {
    MatchLayout(m);
    MatchGroups(m);
  }

  /** The four groups sit at fixed places in the text of a match. */
  lemma MatchSlices(m: PairMatch)
    ensures var t, b := MatchText(m), |m.lat|;
            var c := b + |m.before|;
            var a := c + 1 + |m.after|;
            t[..b] == m.lat && t[b..c] == m.before && t[c + 1..a] == m.after && t[a..] == m.lng
  {
    var t := MatchText(m);
    var b := |m.lat|;
    var c := b + |m.before|;
    var a := c + 1 + |m.after|;
    assert t == m.lat + (m.before + ("," + (m.after + m.lng)));
  }

  /** A latitude and a longitude. */
  datatype LatLng = LatLng(latitude: real, longitude: real)

  function MatchValue(m: PairMatch): LatLng
    requires WellFormedMatch(m)
  {
    LatLng(NumeralValue(m.lat), NumeralValue(m.lng))
  }

  /** Latitude in [-90, 90] and longitude in [-180, 180], bounds included. */
  predicate InRange(c: LatLng) {
    -90.0 <= c.latitude <= 90.0 && -180.0 <= c.longitude <= 180.0
  }

  /** The client's fallback: the trimmed text must match; no range check. */
  function MatchPinpoint(s: string): (r: Option<LatLng>)
    ensures r.Some? ==>
              exists m :: WellFormedMatch(m) && MatchText(m) == Trim(s) && r.value == MatchValue(m)
  {
    match MatchPair(Trim(s))
    case None => None
    case Some(m) => Some(MatchValue(m))
  }

  /** The server's `parseCoordinates`: null, a non-string, the empty
      string, a text that does not match and a pair out of range all give
      `None`. */
  function ParseCoordinates(pinpoint: Value): (r: Option<LatLng>)
    ensures r.Some? ==> pinpoint.Str? && pinpoint.s != "" && r == MatchPinpoint(pinpoint.s) && InRange(r.value)
    ensures pinpoint.Str? && pinpoint.s != "" ==>
              (MatchPinpoint(pinpoint.s).Some? && InRange(MatchPinpoint(pinpoint.s).value) ==>
                 r == MatchPinpoint(pinpoint.s))
  {
    match pinpoint
    case Str(s) =>
      if s == "" then None
      else
        (match MatchPinpoint(s)
         case None => None
         case Some(c) => if InRange(c) then Some(c) else None)
    case _ => None
  }

  /** A pinpoint the server accepts is two numerals with white space around
      and beside the comma, and the pair they denote is in range. */
  lemma ParseCoordinatesSound(pinpoint: Value)
    requires ParseCoordinates(pinpoint).Some?
    ensures pinpoint.Str?
    ensures exists p, m, q :: && AllSpace(p) && AllSpace(q) && WellFormedMatch(m)
                              && pinpoint.s == p + MatchText(m) + q
                              && ParseCoordinates(pinpoint) == Some(MatchValue(m))
                              && InRange(MatchValue(m))
  {
    var s := pinpoint.s;
    var m := MatchPair(Trim(s)).value;
    TrimShape(s);
    var p, q :| AllSpace(p) && AllSpace(q) && s == p + Trim(s) + q;
    assert s == p + MatchText(m) + q;
  }

  /** Every pinpoint of that shape is accepted exactly when it is in range,
      and it gives back the pair it spells. */
  lemma ParseCoordinatesComplete(p: string, m: PairMatch, q: string)
    requires AllSpace(p) && AllSpace(q) && WellFormedMatch(m)
    ensures ParseCoordinates(Str(p + MatchText(m) + q))
            == if InRange(MatchValue(m)) then Some(MatchValue(m)) else None
  {
    MatchPinpointComplete(p, m, q);
  }

  /** The client accepts the same texts without the range check. */
  lemma MatchPinpointComplete(p: string, m: PairMatch, q: string)
    requires AllSpace(p) && AllSpace(q) && WellFormedMatch(m)
    ensures MatchPinpoint(p + MatchText(m) + q) == Some(MatchValue(m))
  {
    var t := MatchText(m);
    NumeralChars(m.lat);
    NumeralChars(m.lng);
    assert t[0] == m.lat[0];
    assert t[|t| - 1] == m.lng[|m.lng| - 1];
    TrimPadded(p, t, q);
    MatchPairText(m);
  }

  /** The server accepts a pinpoint exactly when the client's matcher does
      and the pair is in range. */
  lemma ServerIsClientInRange(s: string)
    requires s != ""
    ensures ParseCoordinates(Str(s)) == (if MatchPinpoint(s).Some? && InRange(MatchPinpoint(s).value)
                                         then MatchPinpoint(s) else None)
  {
  }

  lemma LiteralValue45()
    ensures IsNumeral("45.5") && NumeralValue("45.5") == 45.5
  {
    assert DigitEnd("45.5", 0) == 2;
    assert DigitEnd("45.5", 3) == 4;
    assert "45.5"[..2] == "45" && "45.5"[3..] == "5";
    assert DigitsValue("45") == 45 by { assert "45"[..1] == "4"; }
    assert Shift(5.0, 1) == 0.5;
  }

  lemma LiteralValue122()
    ensures IsNumeral("-122.6") && NumeralValue("-122.6") == -122.6
  {
    assert Magnitude("-122.6") == "122.6";
    assert DigitEnd("122.6", 0) == 3;
    assert DigitEnd("122.6", 4) == 5;
    assert "122.6"[..3] == "122" && "122.6"[4..] == "6";
    assert DigitsValue("122") == 122 by { assert "122"[..2] == "12"; assert "12"[..1] == "1"; }
    assert Shift(6.0, 1) == 0.6;
  }

  /** The location created in the end-to-end scenario: "45.5,-122.6" is
      stored as latitude 45.5 and longitude -122.6. */
  lemma BunchBarMatch(m: PairMatch)
    requires m == PairMatch("45.5", "", "", "-122.6")
    ensures WellFormedMatch(m) && MatchValue(m) == LatLng(45.5, -122.6)
  {
    LiteralValue45();
    LiteralValue122();
  }

  lemma BunchBarText(m: PairMatch)
    requires m == PairMatch("45.5", "", "", "-122.6")
    ensures "" + MatchText(m) + "" == "45.5,-122.6"
  {
  }

  lemma BunchBarPinpoint(s: string)
    requires s == "45.5,-122.6"
    ensures ParseCoordinates(Str(s)) == Some(LatLng(45.5, -122.6))
  {
    var m := PairMatch("45.5", "", "", "-122.6");
    BunchBarMatch(m);
    BunchBarText(m);
    ParseCoordinatesComplete("", m, "");
  }

  lemma LiteralValues100And200()
    ensures IsNumeral("100") && NumeralValue("100") == 100.0
    ensures IsNumeral("200") && NumeralValue("200") == 200.0
  {
    assert DigitEnd("100", 0) == 3 && DigitEnd("200", 0) == 3;
    assert "100"[..3] == "100" && "200"[..3] == "200";
    assert DigitsValue("100") == 100 by { assert "100"[..2] == "10"; assert "10"[..1] == "1"; }
    assert DigitsValue("200") == 200 by { assert "200"[..2] == "20"; assert "20"[..1] == "2"; }
  }

  /** "100,200" is out of range: the server rejects it, the client's
      fallback accepts it. */
  lemma OutOfRangePinpoint()
    ensures ParseCoordinates(Str("100,200")) == None
    ensures MatchPinpoint("100,200") == Some(LatLng(100.0, 200.0))
  {
    var m := PairMatch("100", "", "", "200");
    LiteralValues100And200();
    assert "" + MatchText(m) + "" == "100,200";
    MatchPinpointComplete("", m, "");
  }

  /** Stored coordinates first; the pinpoint is consulted only when either
      is missing, and a pinpoint that does not parse leaves them as they
      were. `parsed` is what the pinpoint gives (server or client rules). */
  function ResolveCoordinates(latitude: Option<real>, longitude: Option<real>,
                              parsed: Option<LatLng>): (r: (Option<real>, Option<real>))
    ensures latitude.Some? && longitude.Some? ==> r == (latitude, longitude)
    ensures (latitude.None? || longitude.None?) && parsed.Some? ==>
              r == (Some(parsed.value.latitude), Some(parsed.value.longitude))
    ensures (latitude.None? || longitude.None?) && parsed.None? ==> r == (latitude, longitude)
  {
    if (latitude.None? || longitude.None?) && parsed.Some? then
      (Some(parsed.value.latitude), Some(parsed.value.longitude))
    else (latitude, longitude)
  }
}
