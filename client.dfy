/**
 * The OpenWeather client object: its configuration fields, the fluent
 * setters that update them, and the forecast request that validates the
 * coordinates, builds the URL, sends it through the injected transport and
 * normalises the response.
 */
module Client {
  import opened Wrappers
  import opened Text
  import opened Options
  import opened Coords
  import opened Http

  const ForecastUrl := "https://api.openweathermap.org/data/2.5/onecall"
  const CoordError := "Co-ordinate error"
  const MissingKey := "[ERROR] OpenWeather() requires an API key"
  const MissingRequests := "[ERROR] OpenWeather() requires a valid requests instance"

  /**
   * The AssertionError message the constructor raises, if any: the API key
   * is checked first, then the requests object.
   */
  function ConstructorError(hasRequests: bool, apiKey: Option<string>): (e: Option<string>)
    ensures e.None? <==> hasRequests && apiKey.Some? && apiKey.value != ""
    ensures (apiKey.None? || apiKey == Some("")) ==> e == Some(MissingKey)
    ensures apiKey.Some? && apiKey.value != "" && !hasRequests ==> e == Some(MissingRequests)
  {
    if apiKey.None? || apiKey.value == "" then Some(MissingKey)
    else if !hasRequests then Some(MissingRequests)
    else None
  }

  class OpenWeather {
    const requests: Transport
    const apikey: string
    const debug: bool
    var units: string
    var lang: string
    var excludes: Option<string>

    /** Every field holds a value the setters can produce. */
    ghost predicate Valid()
      reads this
    {
      && apikey != ""
      && units in UnitTypes
      && lang in LangTypes
      && (excludes.Some? ==> ValidExcludes(excludes.value))
    }

    /** `OpenWeather(requests_object, api_key, do_debug)`, for arguments that pass its assertions. */
    constructor (requestsObject: Transport?, apiKey: Option<string>, doDebug: bool := false)
      requires ConstructorError(requestsObject != null, apiKey).None?
      ensures Valid()
      ensures requests == requestsObject && apikey == apiKey.value && debug == doDebug
      ensures units == DefaultUnit && lang == DefaultLang && excludes == None
    {
      requests := requestsObject;
      apikey := apiKey.value;
      debug := doDebug;
      units := DefaultUnit;
      lang := DefaultLang;
      excludes := None;
    }

    /** `set_unit(requested_units)`. */
    method SetUnit(requestedUnits: string := "standard") returns (self: OpenWeather)
      requires Valid()
      modifies this
      ensures self == this && Valid()
      ensures units == UnitSetting(requestedUnits)
      ensures lang == old(lang) && excludes == old(excludes)
    {
      var requested := Lower(requestedUnits);
      if requested !in UnitTypes {
        requested := FallbackUnit;
      }
      units := requested;
      self := this;
    }

    /** `set_language(language)`. */
    method SetLanguage(language: string := "en") returns (self: OpenWeather)
      requires Valid()
      modifies this
      ensures self == this && Valid()
      ensures lang == LanguageSetting(language)
      ensures units == old(units) && excludes == old(excludes)
    {
      var requested := Lower(language);
      if requested !in LangTypes {
        requested := DefaultLang;
      }
      lang := requested;
      self := this;
    }

    /** `exclude(exclude_list)`. */
    method Exclude(excludeList: seq<string>) returns (self: OpenWeather)
      requires Valid()
      modifies this
      ensures self == this && Valid()
      ensures excludes == ExcludeSetting(excludeList, old(excludes))
      ensures units == old(units) && lang == old(lang)
    {
      self := this;
      var matches := CollectMatches(excludeList);
      if matches == [] {
        return;
      }
      var joined := CommaJoin(matches);
      excludes := Some(joined);
      ExcludeSettingShape(excludeList, old(excludes));
    }

    /** `_add_options(baseurl)` on the current configuration. */
    function AddOptions(baseurl: string := ""): string
      reads this
    {
      OptionString(baseurl, units, lang, excludes)
    }

    /** The URL `request_forecast` sends, with the `{:.6f}` formatting given as `fmt`. */
    function RequestUrl(latitude: Float, longitude: Float, fmt: Float -> string): string
      reads this
    {
      AddOptions(ForecastUrl + "?lat=" + fmt(latitude) + "&lon=" + fmt(longitude) + "&appid=" + apikey)
    }

    /** `_process_response(response)`. */
    method ProcessResponse(response: Response) returns (reply: Reply)
      modifies response
      ensures response.closeCount == old(response.closeCount) + 1
      ensures reply == ResponseReply(response.status, response.body)
    {
      var err := "";
      var data: map<string, Json> := map[];
      if response.status != StatusOk {
        err := RetrieveError + IntToString(response.status) + ")";
      } else {
        var outcome := response.Json();
        match outcome
        case Decoded(obj) =>
          data := obj;
          data := data["statuscode" := JInt(response.status)];
        case DecodeError(message) =>
          err := DecodeErrorPrefix + message;
      }
      response.Close();
      if err != "" {
        return map["err" := Str(err)];
      }
      reply := map["data" := Data(data)];
    }

    /** `_send_request(request_uri)`: one GET through the transport, its response closed once. */
    method SendRequest(url: string) returns (reply: Reply, ghost response: Response)
      modifies requests
      ensures requests.sent == old(requests.sent) + [url]
      ensures reply == ResponseReply(requests.serve(url).status, requests.serve(url).body)
      ensures fresh(response) && response.closeCount == 1
    {
      var r := requests.Get(url);
      response := r;
      reply := ProcessResponse(r);
    }

    /**
     * `request_forecast(latitude, longitude)`: bad coordinates give the
     * coordinate error and send nothing; good ones send exactly one
     * request, to the URL built from the current configuration.
     */
    method RequestForecast(fmt: Float -> string, latitude: Option<Float> := Some(Finite(Sentinel)),
                           longitude: Option<Float> := Some(Finite(Sentinel)))
      returns (reply: Reply)
      requires Valid()
      modifies requests
      ensures !CheckCoords(longitude, latitude) ==>
        reply == map["error" := Str(CoordError)] && requests.sent == old(requests.sent)
      ensures CheckCoords(longitude, latitude) ==>
        var url := RequestUrl(latitude.value, longitude.value, fmt);
        && requests.sent == old(requests.sent) + [url]
        && reply == ResponseReply(requests.serve(url).status, requests.serve(url).body)
    {
      if !CheckCoords(longitude, latitude) {
        return map["error" := Str(CoordError)];
      }
      var url := ForecastUrl;
      url := url + "?lat=" + fmt(latitude.value) + "&lon=" + fmt(longitude.value) + "&appid=" + apikey;
      url := AddOptions(url);
      ghost var response;
      reply, response := SendRequest(url);
    }
  }

  lemma ExcludeTypesDistinct()
    ensures forall i, j :: 0 <= i < j < |ExcludeTypes| ==> ExcludeTypes[i] != ExcludeTypes[j]
  {
  }

  /** The nested loops of `exclude`: each item is compared with every section name and appended on a match. */
  method CollectMatches(excludeList: seq<string>) returns (matches: seq<string>)
    ensures matches == ExcludeMatches(excludeList)
  {
    ExcludeTypesDistinct();
    matches := [];
    for i := 0 to |excludeList|
      invariant matches == ExcludeMatches(excludeList[..i])
    {
      var item := excludeList[i];
      for j := 0 to |ExcludeTypes|
        invariant matches == ExcludeMatches(excludeList[..i]) + (if item in ExcludeTypes[..j] then [item] else [])
      {
        if item == ExcludeTypes[j] {
          matches := matches + [item];
        }
        assert ExcludeTypes[..j + 1] == ExcludeTypes[..j] + [ExcludeTypes[j]];
      }
      assert ExcludeTypes[..|ExcludeTypes|] == ExcludeTypes;
      assert excludeList[..i + 1][..i] == excludeList[..i];
    }
    assert excludeList[..|excludeList|] == excludeList;
  }

  /** The second loop of `exclude`: every match followed by a comma, then the last comma cut off. */
  method CommaJoin(matches: seq<string>) returns (joined: string)
    requires matches != []
    ensures joined == Join(matches, ',')
  {
    var acc := "";
    for k := 0 to |matches|
      invariant k == 0 ==> acc == ""
      invariant k > 0 ==> acc == Join(matches[..k], ',') + ","
    {
      if k > 0 {
        JoinSnoc(matches[..k], ',', matches[k]);
      }
      assert matches[..k + 1] == matches[..k] + [matches[k]];
      acc := acc + matches[k] + ",";
    }
    assert matches[..|matches|] == matches;
    if acc != "" {
      acc := acc[..|acc| - 1];
    }
    joined := acc;
  }

  /** The options a valid configuration produces read back as its own field values. */
  lemma {:induction false} OptionsReadBack(units: string, lang: string, excludes: Option<string>)
    requires units in UnitTypes && lang in LangTypes
    requires excludes.Some? ==> ValidExcludes(excludes.value)
    ensures Split(OptionString("", units, lang, excludes), '&') ==
      [""] + [Piece("units", units), Piece("lang", lang)]
      + (if excludes.Some? && excludes.value != "" then [Piece("exclude", excludes.value)] else [])
  {
    SettingsHaveNoAmpersand(units, lang);
    if excludes.Some? {
      ExcludesHaveNoAmpersand(excludes.value);
    }
    assert lang != "" by {
      assert lang in LangTypesFirst || lang in LangTypesRest;
    }
    assert OptionPieces(units, lang, excludes) ==
      [""] + [Piece("units", units), Piece("lang", lang)]
      + (if excludes.Some? && excludes.value != "" then [Piece("exclude", excludes.value)] else []);
    OptionStringPieces(units, lang, excludes);
  }

  /** A well-formed `excludes` value holds no '&': it is section names and commas. */
  lemma ExcludesHaveNoAmpersand(s: string)
    requires ValidExcludes(s)
    ensures '&' !in s
  {
    if '&' in s {
      var i :| 0 <= i < |s| && s[i] == '&';
      ExcludeTypesShape();
      SplitKeepsNonDelimiters(s, ',', i);
      assert false;
    }
  }

  /** Every character other than the delimiter lands in some piece. */
  lemma {:induction false} SplitKeepsNonDelimiters(s: string, d: char, i: nat)
    requires i < |s| && s[i] != d
    ensures exists k :: 0 <= k < |Split(s, d)| && s[i] in Split(s, d)[k]
  {
    var rest := Split(s[1..], d);
    if i == 0 {
      assert s[0] in [s[0]] + rest[0];
      assert Split(s, d)[0] == [s[0]] + rest[0];
    } else {
      SplitKeepsNonDelimiters(s[1..], d, i - 1);
      var k :| 0 <= k < |rest| && s[1..][i - 1] in rest[k];
      var p := rest[k];
      if s[0] == d {
        assert Split(s, d)[k + 1] == p;
      } else if k == 0 {
        assert Split(s, d)[0] == [s[0]] + p;
        assert s[i] in [s[0]] + p;
      } else {
        assert Split(s, d)[k] == p;
      }
    }
  }

  // Clients of the class, after the repository's unit tests, with the
  // outcomes the code gives where the tests expect otherwise.

  method NewClient() returns (ow: OpenWeather)
    ensures fresh(ow) && fresh(ow.requests) && ow.Valid() && ow.requests.sent == []
    ensures ow.units == DefaultUnit && ow.lang == DefaultLang && ow.excludes == None
  {
    var transport := new Transport(url => Answer(StatusOk, DecodeError("Expecting value")));
    ow := new OpenWeather(transport, Some("TEST"));
  }

  /** The default option string; an empty exclusion list keeps the earlier exclusions. */
  method ExcludeScenario()
  {
    var ow := NewClient();
    OptionStringDefaults();
    assert ow.AddOptions() == "&units=metric&lang=en";
    var _ := ow.Exclude(["current"]);
    assert ExcludeMatches(["current"]) == ["current"] by {
      assert ["current"][..0] == [];
      assert ExcludeTypes[0] == "current";
    }
    assert ow.excludes == Some("current");
    var _ := ow.Exclude([]);
    assert ow.excludes == Some("current");
  }

  /** A bad language resets to "en", not to the language set before. */
  method LanguageScenario()
  {
    var ow := NewClient();
    LanguageExamples();
    var _ := ow.SetLanguage("pt_br");
    assert ow.lang == "pt_br";
    var _ := ow.SetLanguage("zzzzzz");
    assert ow.lang == DefaultLang;
  }

  /** "imperial" is not an accepted unit, so it gives "standard". */
  method UnitScenario()
  {
    var ow := NewClient();
    var _ := ow.SetUnit("imperial");
    UnitSettingKeepsListed("imperial");
    assert ow.units == FallbackUnit;
  }

  /** A request without coordinates gives the coordinate error and sends nothing. */
  method MissingCoordinatesScenario()
  {
    var ow := NewClient();
    var reply := ow.RequestForecast(x => "0.000000");
    assert !CheckCoords(Some(Finite(Sentinel)), Some(Finite(Sentinel)));
    assert reply == map["error" := Str(CoordError)] && ow.requests.sent == [];
  }
}
