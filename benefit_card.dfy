/**
 * One offer's card: the compact star badge, the "Show more" / "Show less"
 * button for long descriptions, and the expanded flag the button flips.
 */
module BenefitCard {
  import opened Wrappers
  import opened Text
  import opened Benefits

  /** Descriptions longer than this many characters get the "Show more" button. */
  const ClampLength: int := 120

  /**
   * `(stars / 1000).toFixed(1)` as a count of tenths: `stars / 100` rounded
   * to the nearest integer. A count ending in exactly 50 lies halfway; the
   * binary double `stars / 1000` then rounds either way, and `tieUp` says
   * which.
   */
  function Tenths(stars: int, tieUp: bool): int
    requires stars >= 1000
  {
    if stars % 100 == 50 then stars / 100 + (if tieUp then 1 else 0) else (stars + 50) / 100
  }

  /** `toFixed(1)` of `tenths / 10`: the whole part, a point and exactly one digit. */
  function FixedOne(tenths: nat): string {
    Digits(tenths / 10) + "." + [DigitChar(tenths % 10)]
  }

  /** `.replace(/\.0$/, '')`: drops a trailing `.0`. */
  function DropPointZero(s: string): string {
    if |s| >= 2 && s[|s| - 2..] == ".0" then s[..|s| - 2] else s
  }

  /** Reads a compact count `D` + `k` or `D.d` + `k` back as a number of tenths of a thousand. */
  function ParseCompact(s: string): Option<int> {
    if |s| < 2 || s[|s| - 1] != 'k' then None
    else
      var body := s[..|s| - 1];
      if |body| >= 3 && body[|body| - 2] == '.' && IsDigit(body[|body| - 1]) && AllDigits(body[..|body| - 2]) then
        Some(DigitsValue(body[..|body| - 2]) * 10 + DigitValue(body[|body| - 1]))
      else if AllDigits(body) then Some(DigitsValue(body) * 10)
      else None
  }

  /** A whole number of thousands: digits, then `k`. */
  lemma WholeCompact(whole: string)
    requires |whole| > 0 && AllDigits(whole)
    ensures var r := whole + "k";
      && (forall i :: 0 <= i < |r| ==> r[i] != '.')
      && ParseCompact(r) == Some(DigitsValue(whole) * 10)
  {
    var r := whole + "k";
    assert r[..|r| - 1] == whole;
    forall i | 0 <= i < |r| ensures r[i] != '.' {
      if i < |whole| { assert IsDigit(whole[i]); }
    }
  }

  /** Thousands and a non-zero tenth: digits, a point, one digit, then `k`. */
  lemma FractionCompact(whole: string, d: char)
    requires |whole| > 0 && AllDigits(whole) && IsDigit(d)
    ensures var r := whole + ['.', d, 'k'];
      && r[|r| - 3..] == ['.', d, 'k']
      && (forall i :: 0 <= i < |r| && r[i] == '.' ==> i == |r| - 3)
      && ParseCompact(r) == Some(DigitsValue(whole) * 10 + DigitValue(d))
  {
    var r := whole + ['.', d, 'k'];
    var body := r[..|r| - 1];
    assert body == whole + ['.', d];
    assert body[..|body| - 2] == whole;
  }

  /** The compact rendering of a number of tenths and what can be read from it. */
  lemma CompactShape(tenths: nat)
    ensures var r := DropPointZero(FixedOne(tenths)) + "k";
      && |r| >= 2 && r[|r| - 1] == 'k'
      && !(|r| >= 3 && r[|r| - 3..] == ".0k")
      && (forall i :: 0 <= i < |r| && r[i] == '.' ==> i == |r| - 3)
      && ParseCompact(r) == Some(tenths)
      && IsDigit(r[0]) && (r[0] == '0' <==> tenths < 10)
  {
    var whole, digit := Digits(tenths / 10), DigitChar(tenths % 10);
    var fixed := FixedOne(tenths);
    assert fixed == whole + ['.', digit];
    assert fixed[|fixed| - 2..] == ['.', digit];
    DigitsRoundTrip(tenths / 10);
    if tenths % 10 == 0 {
      assert DropPointZero(fixed) == whole;
      WholeCompact(whole);
    } else {
      assert DropPointZero(fixed) == fixed;
      assert fixed + "k" == whole + ['.', digit, 'k'];
      FractionCompact(whole, digit);
    }
  }

  /**
   * `formatStars`: below 1000 the plain decimal count; from 1000 on the count
   * in thousands to one decimal, without a trailing `.0`, followed by `k`.
   */
  function FormatStars(stars: int, tieUp: bool): (r: string)
    ensures stars < 1000 ==> r == DecimalString(stars) && ParseInt(r) == Some(stars) && 'k' !in r
    ensures stars >= 1000 ==> |r| >= 2 && r[|r| - 1] == 'k' && IsDigit(r[0]) && r[0] != '0'
    ensures stars >= 1000 ==> !(|r| >= 3 && r[|r| - 3..] == ".0k")
    ensures stars >= 1000 ==> forall i :: 0 <= i < |r| && r[i] == '.' ==> i == |r| - 3
    ensures stars >= 1000 ==> ParseCompact(r).Some? && var t := ParseCompact(r).value;
      if stars % 100 != 50 then 100 * t - 50 <= stars < 100 * t + 50
      else t == stars / 100 || t == stars / 100 + 1
  {
    if stars >= 1000 then
      var t := Tenths(stars, tieUp);
      CompactShape(t);
      DropPointZero(FixedOne(t)) + "k"
    else
      DecimalRoundTrip(stars);
      assert 'k' !in DecimalString(stars) by {
        assert AllDigits(if stars < 0 then Digits(-stars) else Digits(stars));
      }
      DecimalString(stars)
  }

  /** The star badge: its link and its text. */
  datatype Badge = Badge(href: string, text: string)

  /** The badge is rendered only with a count and a non-empty repository, and links to the repository on GitHub. */
  function StarBadge(b: Benefit, stars: Option<int>, tieUp: bool): (badge: Option<Badge>)
    ensures badge.Some? <==> stars.Some? && IsNamed(b.repo)
    ensures badge.Some? ==>
      && badge.value.href == "https://github.com/" + b.repo.value
      && badge.value.text == FormatStars(stars.value, tieUp)
  {
    if stars.Some? && IsNamed(b.repo) then
      Some(Badge("https://github.com/" + b.repo.value, FormatStars(stars.value, tieUp)))
    else None
  }

  /** The button under the description: present only for a long description, labelled by the current state. */
  function ToggleButton(description: string, expanded: bool): (button: Option<string>)
    ensures button.Some? <==> |description| > ClampLength
    ensures button.Some? ==> (button.value == "Show less" <==> expanded)
    ensures button.Some? ==> (button.value == "Show more" <==> !expanded)
  {
    if |description| > ClampLength then Some(if expanded then "Show less" else "Show more") else None
  }

  /** A card starts collapsed. */
  const InitiallyExpanded: bool := false

  /** A freshly rendered card with a long description offers "Show more", and a short one no button. */
  lemma InitialToggle(description: string)
    ensures ToggleButton(description, InitiallyExpanded) == if |description| > ClampLength then Some("Show more") else None
  {
  }

  /** A click on the description or on the button: `setExpanded(!expanded)`. */
  function Click(expanded: bool): (next: bool)
    ensures next != expanded
  {
    !expanded
  }

  /** Two clicks restore the state, and the button label with it. */
  lemma ClickTwiceRestores(description: string, expanded: bool)
    ensures Click(Click(expanded)) == expanded
    ensures ToggleButton(description, Click(Click(expanded))) == ToggleButton(description, expanded)
  {
  }
}
