/**
 * The request options of the OpenWeather client: the fixed lists of
 * accepted units, languages and excluded sections, what each setter
 * stores for a given request, and the option string appended to a
 * request URL.
 */
module Options {
  import opened Wrappers
  import opened Text

  /** The accepted units, as the client spells them ("imperal" included). */
  const UnitTypes: seq<string> := ["metric", "imperal", "standard"]

  const DefaultUnit := "metric"
  const FallbackUnit := "standard"

  /** The 49 accepted language codes, in the client's order (held in two parts to keep proofs about them small). */
  const LangTypes: seq<string> := LangTypesFirst + LangTypesRest

  const LangTypesFirst: seq<string> :=
    ["af", "al", "ar", "az", "bg", "ca", "cz", "da", "de", "el", "en", "eu", "fa",
     "fi", "fr", "gl", "he", "hi", "hr", "hu", "id", "it", "ja", "kr", "la", "lt"]

  const LangTypesRest: seq<string> :=
    ["mk", "no", "nl", "pl", "pt", "pt_br", "ro", "ru", "se", "sv", "sk", "sl", "sp",
     "es", "sr", "th", "tr", "ua", "uk", "vi", "zh_cn", "zh_tw", "zu"]

  const DefaultLang := "en"

  /** The data sections a forecast request may leave out. */
  const ExcludeTypes: seq<string> := ["current", "minutely", "hourly", "daily", "alerts"]

  // ---------------------------------------------------------------------
  // set_unit and set_language
  // ---------------------------------------------------------------------

  /** The units `set_unit(requested)` stores. */
  function UnitSetting(requested: string): (u: string)
    ensures u in UnitTypes
    ensures Lower(requested) in UnitTypes ==> u == Lower(requested)
    ensures Lower(requested) !in UnitTypes ==> u == FallbackUnit
  {
    var lowered := Lower(requested);
    if lowered in UnitTypes then lowered else FallbackUnit
  }

  /** The language `set_language(requested)` stores. */
  function LanguageSetting(requested: string): (l: string)
    ensures l in LangTypes
    ensures Lower(requested) in LangTypes ==> l == Lower(requested)
    ensures Lower(requested) !in LangTypes ==> l == DefaultLang
  {
    var lowered := Lower(requested);
    if lowered in LangTypes then lowered else DefaultLang
  }

  /** Setting the units to the value already stored changes nothing. */
  lemma UnitSettingIdempotent(requested: string)
    ensures UnitSetting(UnitSetting(requested)) == UnitSetting(requested)
  {
    ListedUnitIsLower(UnitSetting(requested));
  }

  lemma ListedUnitIsLower(u: string)
    requires u in UnitTypes
    ensures Lower(u) == u
  {
    if u == "metric" {
      LowerOfLower("metric");
    } else if u == "imperal" {
      LowerOfLower("imperal");
    } else {
      LowerOfLower("standard");
    }
  }

  /** Setting the language to the value already stored changes nothing. */
  lemma LanguageSettingIdempotent(requested: string)
    ensures LanguageSetting(LanguageSetting(requested)) == LanguageSetting(requested)
  {
    LowerIdempotent(requested);
    LowerOfLower(DefaultLang);
  }

  /**
   * The requested units are kept exactly when their lower-case form is listed;
   * the correct spelling "imperial" is not listed, so it falls back to "standard".
   */
  lemma UnitSettingKeepsListed(requested: string)
    ensures UnitSetting(requested) == Lower(requested) <==> Lower(requested) in UnitTypes
    ensures UnitSetting("imperial") == FallbackUnit
  {
    ImperialUnlisted();
  }

  lemma ImperialUnlisted()
    ensures Lower("imperial") == "imperial" && "imperial" !in UnitTypes
  {
    LowerOfLower("imperial");
    ImperialNotAUnit();
  }

  lemma ImperialNotAUnit()
    ensures "imperial" !in UnitTypes
  {
    assert |"imperial"| == 8 && |"metric"| == 6 && |"imperal"| == 7;
    assert "imperial"[0] != "standard"[0];
  }

  /**
   * The requested language is kept exactly when its lower-case form is
   * listed; otherwise "en" replaces whatever was stored before.
   */
  lemma LanguageSettingKeepsListed(requested: string)
    ensures LanguageSetting(requested) == Lower(requested) <==> Lower(requested) in LangTypes
  {
    assert DefaultLang in LangTypes;
  }

  /** A listed language is kept; an unlisted one gives "en". */
  lemma LanguageExamples()
    ensures LanguageSetting("pt_br") == "pt_br"
    ensures LanguageSetting("zzzzzz") == DefaultLang
  {
    ListedLanguageKept();
    UnlistedLanguageReset();
  }

  lemma ListedLanguageKept()
    ensures LanguageSetting("pt_br") == "pt_br"
  {
    LowerOfLower("pt_br");
    assert Lower("pt_br") == "pt_br";
    assert LangTypesRest[5] == "pt_br";
    assert LangTypes[|LangTypesFirst| + 5] == "pt_br";
  }

  lemma UnlistedLanguageReset()
    ensures LanguageSetting("zzzzzz") == DefaultLang
  {
    LowerOfLower("zzzzzz");
    assert Lower("zzzzzz") == "zzzzzz";
    UnlistedLanguage("zzzzzz");
  }

  lemma UnlistedLanguage(s: string)
    requires |s| > 5
    ensures s !in LangTypes
  {
    assert s !in LangTypesFirst;
    assert s !in LangTypesRest;
  }

  /** No accepted unit or language holds an '&', so none can break the query string apart. */
  lemma SettingsHaveNoAmpersand(units: string, lang: string)
    requires units in UnitTypes && lang in LangTypes
    ensures '&' !in units && '&' !in lang
  {
    assert lang in LangTypesFirst || lang in LangTypesRest;
    if lang in LangTypesFirst {
      FirstLanguagesHaveNoAmpersand(lang);
    } else {
      RestLanguagesHaveNoAmpersand(lang);
    }
  }

  lemma FirstLanguagesHaveNoAmpersand(lang: string)
    requires lang in LangTypesFirst
    ensures '&' !in lang
  {
  }

  lemma RestLanguagesHaveNoAmpersand(lang: string)
    requires lang in LangTypesRest
    ensures '&' !in lang
  {
  }

  // ---------------------------------------------------------------------
  // exclude
  // ---------------------------------------------------------------------

  /** The elements of `items` that name an exclusion section, in order, duplicates kept. */
  function ExcludeMatches(items: seq<string>): (m: seq<string>)
    ensures |m| <= |items|
    ensures forall i :: 0 <= i < |m| ==> m[i] in ExcludeTypes
    ensures m == [] <==> forall i :: 0 <= i < |items| ==> items[i] !in ExcludeTypes
  {
    if items == [] then []
    else
      var last := items[|items| - 1];
      ExcludeMatches(items[..|items| - 1]) + (if last in ExcludeTypes then [last] else [])
  }

  /** Filtering a concatenation filters each half and keeps their order. */
  lemma {:induction false} ExcludeMatchesAppend(a: seq<string>, b: seq<string>)
    ensures ExcludeMatches(a + b) == ExcludeMatches(a) + ExcludeMatches(b)
  {
    if b == [] {
      assert a + b == a;
    } else {
      var init, last := b[..|b| - 1], b[|b| - 1];
      var keep := if last in ExcludeTypes then [last] else [];
      var ab := a + b;
      assert ab[..|ab| - 1] == a + init;
      assert ab[|ab| - 1] == last;
      calc {
        ExcludeMatches(ab);
        ExcludeMatches(a + init) + keep;
        { ExcludeMatchesAppend(a, init); }
        ExcludeMatches(a) + ExcludeMatches(init) + keep;
        ExcludeMatches(a) + (ExcludeMatches(init) + keep);
        ExcludeMatches(a) + ExcludeMatches(b);
      }
    }
  }

  /** Every occurrence of a section name in the input survives the filter; nothing else does. */
  lemma {:induction false} ExcludeMatchesCounts(items: seq<string>, x: string)
    ensures multiset(ExcludeMatches(items))[x] == if x in ExcludeTypes then multiset(items)[x] else 0
  {
    if items != [] {
      ExcludeMatchesCounts(items[..|items| - 1], x);
      assert items == items[..|items| - 1] + [items[|items| - 1]];
    }
  }

  /** The value `exclude(items)` leaves in the `excludes` field, given the one before. */
  function ExcludeSetting(items: seq<string>, previous: Option<string>): (r: Option<string>)
    ensures ExcludeMatches(items) == [] ==> r == previous
    ensures ExcludeMatches(items) != [] ==>
      var first := ExcludeMatches(items)[0];
      r.Some? && first != [] && |first| <= |r.value| && r.value[..|first|] == first
  {
    var m := ExcludeMatches(items);
    if m == [] then previous else Some(Join(m, ','))
  }

  /**
   * A well-formed `excludes` value: its comma-separated pieces are all
   * section names.
   */
  predicate ValidExcludes(s: string)
  {
    forall i :: 0 <= i < |Split(s, ',')| ==> Split(s, ',')[i] in ExcludeTypes
  }

  lemma ExcludeTypesShape()
    ensures forall t :: t in ExcludeTypes ==> t != [] && ',' !in t
  {
  }

  /**
   * When some element is a section name, the stored value splits back into
   * exactly the matches, has no trailing comma and is well formed; when none
   * is, the previous value stays.
   */
  lemma {:induction false} ExcludeSettingShape(items: seq<string>, previous: Option<string>)
    ensures ExcludeMatches(items) == [] ==> ExcludeSetting(items, previous) == previous
    ensures ExcludeMatches(items) != [] ==>
      && ExcludeSetting(items, previous).Some?
      && var s := ExcludeSetting(items, previous).value;
      && Split(s, ',') == ExcludeMatches(items)
      && s != [] && s[|s| - 1] != ','
      && ValidExcludes(s)
  {
    var m := ExcludeMatches(items);
    if m != [] {
      ExcludeTypesShape();
      SplitJoin(m, ',');
      JoinNoTrailingSeparator(m, ',');
    }
  }

  // ---------------------------------------------------------------------
  // _add_options
  // ---------------------------------------------------------------------

  /** The text of one option between its '&' and the next. */
  function Piece(name: string, value: string): string
  {
    name + "=" + value
  }

  /** One query option as `_add_options` writes it: `&`, then the piece. */
  function Param(name: string, value: string): string
  {
    "&" + Piece(name, value)
  }

  /** `baseurl` followed by the query options for the given configuration (Python truthiness for lang and excludes). */
  function OptionString(baseurl: string, units: string, lang: string, excludes: Option<string>): (r: string)
  {
    var opts := Param("units", units);
    var opts := if lang != "" then opts + Param("lang", lang) else opts;
    var opts := if excludes.Some? && excludes.value != "" then opts + Param("exclude", excludes.value) else opts;
    baseurl + opts
  }

  /** The option string of the freshly constructed client. */
  lemma OptionStringDefaults()
    ensures OptionString("", DefaultUnit, DefaultLang, None) == "&units=metric&lang=en"
  {
    assert Param("units", "metric") == "&units=metric";
    assert Param("lang", "en") == "&lang=en";
  }

  /** The option string of the freshly constructed client after `exclude(["daily"])`. */
  lemma OptionStringExcludeDaily()
    ensures OptionString("", DefaultUnit, DefaultLang, ExcludeSetting(["daily"], None)) == "&units=metric&lang=en&exclude=daily"
  {
    ExcludeDaily();
    OptionStringDefaults();
    OptionStringAddsExclude(DefaultUnit, DefaultLang, "daily");
    assert Param("exclude", "daily") == "&exclude=daily";
    assert "&units=metric&lang=en" + "&exclude=daily" == "&units=metric&lang=en&exclude=daily";
  }

  lemma ExcludeDaily()
    ensures ExcludeSetting(["daily"], None) == Some("daily")
  {
    assert ["daily"][..0] == [];
    assert ExcludeTypes[3] == "daily";
    assert ExcludeMatches(["daily"]) == ["daily"];
  }

  /** Setting exclusions appends one `&exclude=` option to the option string. */
  lemma OptionStringAddsExclude(units: string, lang: string, excludes: string)
    requires excludes != ""
    ensures OptionString("", units, lang, Some(excludes)) == OptionString("", units, lang, None) + Param("exclude", excludes)
  {
  }

  /**
   * The option string read back: split on '&' it gives an empty piece (the
   * end of the base URL), then `units=`, `lang=` when the language is set and
   * `exclude=` when exclusions are set, in that order. This holds whenever
   * no value holds an '&', which every accepted value satisfies.
   */
  lemma OptionStringPieces(units: string, lang: string, excludes: Option<string>)
    requires '&' !in units && '&' !in lang
    requires excludes.Some? ==> '&' !in excludes.value
    ensures Split(OptionString("", units, lang, excludes), '&') == OptionPieces(units, lang, excludes)
  {
    var pieces := OptionPieces(units, lang, excludes);
    OptionPiecesFree(units, lang, excludes);
    OptionStringIsJoin(units, lang, excludes);
    SplitJoin(pieces, '&');
  }

  /** The pieces of the option string between its '&' separators. */
  function OptionPieces(units: string, lang: string, excludes: Option<string>): seq<string>
  {
    [""] + [Piece("units", units)]
    + (if lang != "" then [Piece("lang", lang)] else [])
    + (if excludes.Some? && excludes.value != "" then [Piece("exclude", excludes.value)] else [])
  }

  lemma PieceFree(name: string, value: string, d: char)
    requires d !in name && d != '=' && d !in value
    ensures d !in Piece(name, value)
  {
    assert forall c :: c in Piece(name, value) ==> c in name || c == '=' || c in value;
  }

  lemma OptionPiecesFree(units: string, lang: string, excludes: Option<string>)
    requires '&' !in units && '&' !in lang
    requires excludes.Some? ==> '&' !in excludes.value
    ensures forall i :: 0 <= i < |OptionPieces(units, lang, excludes)| ==> '&' !in OptionPieces(units, lang, excludes)[i]
  {
    PieceFree("units", units, '&');
    PieceFree("lang", lang, '&');
    if excludes.Some? {
      PieceFree("exclude", excludes.value, '&');
    }
  }

  lemma OptionStringIsJoin(units: string, lang: string, excludes: Option<string>)
    ensures OptionString("", units, lang, excludes) == Join(OptionPieces(units, lang, excludes), '&')
  {
    var u := Piece("units", units);
    if excludes.Some? && excludes.value != "" {
      var e := Piece("exclude", excludes.value);
      if lang != "" {
        var l := Piece("lang", lang);
        JoinFour(u, l, e);
        assert OptionPieces(units, lang, excludes) == ["", u, l, e];
      } else {
        JoinThree(u, e);
        assert OptionPieces(units, lang, excludes) == ["", u, e];
      }
    } else if lang != "" {
      var l := Piece("lang", lang);
      JoinThree(u, l);
      assert OptionPieces(units, lang, excludes) == ["", u, l];
    } else {
      assert OptionPieces(units, lang, excludes) == ["", u];
      assert ["", u][1..] == [u];
    }
  }

  lemma JoinThree(a: string, b: string)
    ensures Join(["", a, b], '&') == ("&" + a) + ("&" + b)
  {
    assert ["", a, b][1..] == [a, b];
    assert [a, b][1..] == [b];
    assert Join([b], '&') == b;
    assert Join([a, b], '&') == a + "&" + b;
  }

  lemma JoinFour(a: string, b: string, c: string)
    ensures Join(["", a, b, c], '&') == ("&" + a) + ("&" + b) + ("&" + c)
  {
    assert ["", a, b, c][1..] == [a, b, c];
    assert [a, b, c][1..] == [b, c];
    assert [b, c][1..] == [c];
    assert Join([c], '&') == c;
    assert Join([b, c], '&') == b + "&" + c;
    assert Join([a, b, c], '&') == a + "&" + b + "&" + c;
  }
}
