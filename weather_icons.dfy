/**
 * The widget's icon table: a fixed, total mapping from the weather provider's
 * icon codes (two digits for the condition, then 'd' for day or 'n' for night)
 * to the drawables bundled with the app, with the system compass icon for any
 * other code.
 */
module WeatherIcons {
  import opened Wrappers

  /** The drawables the widget can show; `Compass` is the system's `ic_menu_compass`. */
  datatype Drawable =
    | ClearDay | ClearNight
    | FewCloudsDay | FewCloudsNight
    | ScatteredClouds | BrokenClouds | ShowerRain
    | RainDay | RainNight
    | Thunderstorm | Snow | Mist
    | Compass

  /** The icon shown for a code the table does not list. */
  const DefaultIcon: Drawable := Compass

  /** The 18 codes the table lists. */
  const KnownCodes: set<string> := {
    "01d", "01n", "02d", "02n", "03d", "03n", "04d", "04n", "09d", "09n",
    "10d", "10n", "11d", "11n", "13d", "13n", "50d", "50n"
  }

  /** The lookup the widget performs, one case per listed code. */
  function WeatherIconResource(code: string): (r: Drawable)
    ensures r == DefaultIcon <==> code !in KnownCodes
  {
    match code
    case "01d" => ClearDay
    case "01n" => ClearNight
    case "02d" => FewCloudsDay
    case "02n" => FewCloudsNight
    case "03d" => ScatteredClouds
    case "03n" => ScatteredClouds
    case "04d" => BrokenClouds
    case "04n" => BrokenClouds
    case "09d" => ShowerRain
    case "09n" => ShowerRain
    case "10d" => RainDay
    case "10n" => RainNight
    case "11d" => Thunderstorm
    case "11n" => Thunderstorm
    case "13d" => Snow
    case "13n" => Snow
    case "50d" => Mist
    case "50n" => Mist
    case _ => DefaultIcon
  }

  // ---------------------------------------------------------------------------
  // An independent reading of the same table: split a code into its condition
  // and its time of day, then pick the drawable.

  /** The weather conditions the provider's two-digit prefixes name. */
  datatype Condition =
    | Clear | FewClouds | ScatteredSky | BrokenSky | Showers | Rain | Storm | Snowfall | Haze

  function ConditionOf(prefix: string): (c: Option<Condition>)
    ensures c.Some? <==> prefix in {"01", "02", "03", "04", "09", "10", "11", "13", "50"}
  {
    if prefix == "01" then Some(Clear)
    else if prefix == "02" then Some(FewClouds)
    else if prefix == "03" then Some(ScatteredSky)
    else if prefix == "04" then Some(BrokenSky)
    else if prefix == "09" then Some(Showers)
    else if prefix == "10" then Some(Rain)
    else if prefix == "11" then Some(Storm)
    else if prefix == "13" then Some(Snowfall)
    else if prefix == "50" then Some(Haze)
    else None
  }

  /** Only clear sky, few clouds and rain have separate day and night drawables. */
  function DrawableFor(c: Condition, night: bool): (r: Drawable)
    ensures r != DefaultIcon
  {
    match c
    case Clear => if night then ClearNight else ClearDay
    case FewClouds => if night then FewCloudsNight else FewCloudsDay
    case ScatteredSky => ScatteredClouds
    case BrokenSky => BrokenClouds
    case Showers => ShowerRain
    case Rain => if night then RainNight else RainDay
    case Storm => Thunderstorm
    case Snowfall => Snow
    case Haze => Mist
  }

  /** A code is a known prefix followed by 'd' or 'n'; anything else gets the default. */
  function ReferenceIcon(code: string): Drawable
  {
    if |code| == 3 && (code[2] == 'd' || code[2] == 'n') then
      match ConditionOf(code[..2])
      case Some(c) => DrawableFor(c, code[2] == 'n')
      case None => DefaultIcon
    else
      DefaultIcon
  }

  /** A three-character code is its prefix followed by its last character. */
  lemma SplitCode(code: string)
    requires |code| == 3
    ensures code == code[..2] + [code[2]]
  {
  }

  /** The table agrees with the reading by condition and time of day, for every string. */
  lemma {:induction false} LookupMatchesReference(code: string)
    ensures WeatherIconResource(code) == ReferenceIcon(code)
  {
    if |code| == 3 && (code[2] == 'd' || code[2] == 'n') {
      SplitCode(code);
      CodeCases(code, code[..2], code[2]);
    }
  }

  /** A prefix followed by 'd' or 'n' agrees with the reference, prefix by prefix. */
  lemma CodeCases(code: string, p: string, suffix: char)
    requires suffix == 'd' || suffix == 'n'
    requires code == p + [suffix]
    ensures WeatherIconResource(code) == ReferenceIcon(code)
  {
    if |p| == 2 {
      assert code[..2] == p && code[2] == suffix;
      if p == "01" {
        if suffix == 'd' { assert code == "01d"; } else { assert code == "01n"; }
      } else if p == "02" {
        if suffix == 'd' { assert code == "02d"; } else { assert code == "02n"; }
      } else if p == "03" {
        if suffix == 'd' { assert code == "03d"; } else { assert code == "03n"; }
      } else if p == "04" {
        if suffix == 'd' { assert code == "04d"; } else { assert code == "04n"; }
      } else if p == "09" {
        if suffix == 'd' { assert code == "09d"; } else { assert code == "09n"; }
      } else if p == "10" {
        if suffix == 'd' { assert code == "10d"; } else { assert code == "10n"; }
      } else if p == "11" {
        if suffix == 'd' { assert code == "11d"; } else { assert code == "11n"; }
      } else if p == "13" {
        if suffix == 'd' { assert code == "13d"; } else { assert code == "13n"; }
      } else if p == "50" {
        if suffix == 'd' { assert code == "50d"; } else { assert code == "50n"; }
      }
    }
  }

  /**
   * The day and night variants of a prefix show different drawables exactly
   * for clear sky (01), few clouds (02) and rain (10); every other prefix,
   * listed or not, shows one drawable for both.
   */
  lemma DayNightVariants(prefix: string)
    ensures WeatherIconResource(prefix + "d") != WeatherIconResource(prefix + "n")
        <==> prefix in {"01", "02", "10"}
  {
    var day, night := prefix + "d", prefix + "n";
    LookupMatchesReference(day);
    LookupMatchesReference(night);
    if |prefix| == 2 {
      assert day[..2] == prefix && day[2] == 'd';
      assert night[..2] == prefix && night[2] == 'n';
    }
  }

  /** The designated drawable of each listed code. */
  lemma KnownCodeDrawables()
    ensures WeatherIconResource("01d") == ClearDay && WeatherIconResource("01n") == ClearNight
    ensures WeatherIconResource("02d") == FewCloudsDay && WeatherIconResource("02n") == FewCloudsNight
    ensures WeatherIconResource("03d") == WeatherIconResource("03n") == ScatteredClouds
    ensures WeatherIconResource("04d") == WeatherIconResource("04n") == BrokenClouds
    ensures WeatherIconResource("09d") == WeatherIconResource("09n") == ShowerRain
    ensures WeatherIconResource("10d") == RainDay && WeatherIconResource("10n") == RainNight
    ensures WeatherIconResource("11d") == WeatherIconResource("11n") == Thunderstorm
    ensures WeatherIconResource("13d") == WeatherIconResource("13n") == Snow
    ensures WeatherIconResource("50d") == WeatherIconResource("50n") == Mist
  {
  }

  /** A listed code is a listed two-digit prefix followed by 'd' or 'n'. */
  lemma KnownCodeShape(code: string)
    requires code in KnownCodes
    ensures |code| == 3 && (code[2] == 'd' || code[2] == 'n') && ConditionOf(code[..2]).Some?
  {
  }

  /** Distinct prefixes name distinct conditions. */
  lemma ConditionOfInjective(p: string, q: string)
    requires ConditionOf(p).Some? && ConditionOf(p) == ConditionOf(q)
    ensures p == q
  {
  }

  /** A drawable determines its condition, and also its time of day for 01, 02 and 10. */
  lemma DrawableForInjective(c: Condition, night: bool, c': Condition, night': bool)
    requires DrawableFor(c, night) == DrawableFor(c', night')
    ensures c == c' && (night == night' || c !in {Clear, FewClouds, Rain})
  {
  }

  /** Different listed codes share a drawable only when they are the day and night of one prefix. */
  lemma SharedDrawablesArePairs(a: string, b: string)
    requires a in KnownCodes && b in KnownCodes && a != b
    requires WeatherIconResource(a) == WeatherIconResource(b)
    ensures |a| == |b| == 3 && a[..2] == b[..2] && a[..2] in {"03", "04", "09", "11", "13", "50"}
  {
    KnownCodeShape(a);
    KnownCodeShape(b);
    LookupMatchesReference(a);
    LookupMatchesReference(b);
    var ca, cb := ConditionOf(a[..2]).value, ConditionOf(b[..2]).value;
    DrawableForInjective(ca, a[2] == 'n', cb, b[2] == 'n');
    ConditionOfInjective(a[..2], b[..2]);
    SplitCode(a);
    SplitCode(b);
    assert a[2] != b[2];
  }
}
