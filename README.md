# OpenWeather client: a Dafny model

This project models the `OpenWeather` client class of the OpenWeather-Python
library (version 2.0.1). The class is a small wrapper around the OpenWeather
"One Call" forecast API. It holds a configuration: the API key, the injected
`requests` object, a debug flag, and three option strings (`units`, `lang`,
`excludes`). Fluent setters update the options. `request_forecast` checks
the coordinates, builds the request URL, sends it through the `requests`
object and turns the response into a dictionary with an `err` or a `data`
key.

Modules, one per part of the class:

- `Wrappers` holds `Option`, for the values the source keeps as `None`.
- `Text` holds the Python string operations the class uses: `str.lower()`,
  a comma join, `str.split()` to read a join back, and `str(int)` with its
  reader.
- `Options` holds the accepted unit, language and exclusion lists. It also
  says what each setter stores and what `_add_options` builds.
- `Coords` holds `_check_coords`, both as written and corrected (see
  Findings).
- `Debug` holds `_print_debug`, both as written and corrected (see
  Findings).
- `Http` holds the JSON values, the response (`json()`, `close()`, a count
  of the `close()` calls), the transport (it records every URL it is asked
  for) and the reply `_process_response` gives.
- `Client` holds the class `OpenWeather`. Its mutable fields are `units`,
  `lang` and `excludes`. `SetUnit`, `SetLanguage` and `Exclude` update them
  in place and return the instance. `ProcessResponse`, `SendRequest` and
  `RequestForecast` are the request side. The small client methods at the
  end replay the library's unit tests, with the outcomes the code gives.

Where the code and its English description or its tests disagree, the
model follows the code:

- A bad unit becomes `"standard"`, even when another unit was set before.
- The accepted units are `metric`, `imperal` and `standard`. `imperal` is
  misspelt in the code, so `"imperial"` is rejected and becomes `standard`.
- A bad language becomes `"en"`, even when another language was set before.
- Longitude bounds are inclusive, so longitude 180 is accepted.
- The constructor does not check the debug flag.
- The setter that the tests call `set_units` is `set_unit` in the code.

`_check_coords` takes each coordinate as the result of Python's `float()`:
`None` when `float()` raised ValueError or OverflowError (the two errors the
code catches), otherwise an IEEE double, which is finite, an
infinity or NaN. The HTTP server is a function `serve` from URL to status
code and decode outcome. The `{:.6f}` formatting of a coordinate is a
parameter `fmt` of `RequestForecast`.

## Model

| member | source | states |
|---|---|---|
| `Text.Lower` | openweather.py:94 | `Lower` keeps the length and lowers each ASCII upper-case letter, leaving every other character as it is |
| `Text.LowerIdempotent` | openweather.py:94 | a lowered string has no upper-case letters, and lowering it again changes nothing |
| `Text.SplitJoin` | openweather.py:149-154 | splitting a comma join gives back exactly the pieces, when no piece holds a comma |
| `Text.JoinNoTrailingSeparator` | openweather.py:153-154 | a join of non-empty pieces without commas does not end with a comma |
| `Text.IntToString` | openweather.py:190 | `str()` of a status code: never empty, and it starts with a minus sign exactly when the code is negative |
| `Text.NatToStringRoundTrip` | openweather.py:190 | the decimal numeral `str()` writes for a status code reads back as that code |
| `Options.UnitSetting` | openweather.py:93-99 | the stored unit is always one of the three listed; it is the lowered request when that is listed, otherwise `standard` |
| `Options.UnitSettingIdempotent` | openweather.py:93-99 | setting the stored unit again leaves it unchanged |
| `Options.UnitSettingKeepsListed` | openweather.py:93-97 | the request is kept if and only if its lowered form is listed; `"imperial"` gives `standard` |
| `Options.LanguageSetting` | openweather.py:116-124 | the stored language is always one of the 49 codes; it is the lowered request when that is listed, otherwise `en` |
| `Options.LanguageSettingIdempotent` | openweather.py:116-124 | setting the stored language again leaves it unchanged |
| `Options.LanguageSettingKeepsListed` | openweather.py:116-124 | the request is kept if and only if its lowered form is listed |
| `Options.LanguageExamples` | openweather.py:116-124 | `pt_br` is kept; `zzzzzz` gives `en`, whatever was set before |
| `Options.SettingsHaveNoAmpersand` | openweather.py:93-118 | no unit of the list at line 93 and no language of the list at lines 116-118 holds an `&` |
| `Options.ExcludeMatches` | openweather.py:139-143 | the matches are all section names, no more than the input, and empty if and only if no input element is a section name |
| `Options.ExcludeMatchesAppend` | openweather.py:140-143 | filtering a concatenation is the concatenation of the filtered parts, so input order is kept |
| `Options.ExcludeMatchesCounts` | openweather.py:140-143 | each section name occurs in the matches as often as in the input (duplicates kept); nothing else occurs |
| `Options.ExcludeSetting` | openweather.py:139-154 | the `excludes` value after `exclude`: the previous value when no element is a section name, otherwise a value that starts with the first match |
| `Options.ExcludeSettingShape` | openweather.py:145-154 | with no match, `excludes` is unchanged; otherwise it splits back into exactly the matches, has no trailing comma, and every piece is a section name |
| `Options.OptionString` | openweather.py:257-260 | `_add_options` on given field values: the base URL, then `&units=`, then `&lang=` when the language is non-empty, then `&exclude=` when exclusions are set and non-empty; its properties are the lemmas below |
| `Options.OptionStringDefaults` | openweather.py:257-260 | with the defaults the options are exactly `&units=metric&lang=en` |
| `Options.OptionStringExcludeDaily` | openweather.py:257-260 | after `exclude(["daily"])` on a new client the options are exactly `&units=metric&lang=en&exclude=daily` |
| `Options.OptionStringAddsExclude` | openweather.py:259 | a non-empty exclusion value appends exactly one `&exclude=` option to the options without it |
| `Options.OptionStringPieces` | openweather.py:257-260 | split on `&`, the options are `units=`, then `lang=` only when set, then `exclude=` only when set, in that order |
| `Coords.CheckCoordsAsWritten` | openweather.py:220-243 | as written: true if and only if both values parse and each is either NaN or within its inclusive range |
| `Coords.AsWrittenAcceptsNaN` | openweather.py:232-243 | as written, a NaN coordinate passes the check |
| `Coords.CheckCoords` | openweather.py:220-243 | corrected: true if and only if both parse to finite values, latitude in [-90, 90] and longitude in [-180, 180] |
| `Coords.CheckCoordsAgreeWithoutNaN` | openweather.py:220-243 | without NaN inputs, the corrected check gives the same answer as the check as written |
| `Coords.SentinelRejected` | openweather.py:232-243 | the 999.0 sentinel is rejected on either axis; the bounds are inclusive, so longitude 180 with latitude 0 is accepted |
| `Debug.PrintDebugAsWritten` | openweather.py:273-282 | `_print_debug` as written: it never prints anything |
| `Debug.PrintDebug` | openweather.py:273-282 | `_print_debug` corrected: it never raises |
| `Debug.PrintDebugAsWrittenRaises` | openweather.py:280-282 | as written, every debug trace raises TypeError once debugging is on, whatever the messages |
| `Debug.PrintDebugNeverRaises` | openweather.py:273-282 | corrected: the trace never raises; it prints nothing when debugging is off, and otherwise the tag followed by every message in order |
| `Debug.PrintDebugAgreeWhenOff` | openweather.py:280-282 | the trace as written and the corrected trace agree exactly when debugging is off |
| `Http.Response.Json` | openweather.py:194 | `json()` gives the decode outcome of the body |
| `Http.Response.Close` | openweather.py:199 | `close()` adds one to the close count |
| `Http.Transport.Get` | openweather.py:172 | a GET appends the URL to the sent list and returns a fresh, open response holding the server's answer |
| `Http.ResponseReply` | openweather.py:186-205 | the dictionary `_process_response` returns holds exactly one of `err` and `data` |
| `Http.ResponseReplyShape` | openweather.py:186-205 | exactly one of `err`/`data` is present; `err` names the status, or starts with the decode prefix followed by the decode message; `data` is the decoded object with `statuscode` 200 and every other field kept |
| `Http.RetrieveErrorNamesStatus` | openweather.py:189-190 | the digits in a retrieval error read back as the status code |
| `Http.BadStatusMessage` | openweather.py:189-190 | status 400 gives exactly `{"err": "Unable to retrieve forecast data (code: 400)"}` |
| `Client.ConstructorError` | openweather.py:46-47 | the constructor fails if and only if the API key is missing or empty, or there is no requests object; the key is checked first |
| `Client.OpenWeather.constructor` | openweather.py:26-52 | a new instance stores the key, the requests object and the debug flag, and starts with `metric`, `en` and no exclusions |
| `Client.OpenWeather.SetUnit` | openweather.py:81-101 | `units` becomes the normalised request; nothing else changes; the instance is returned |
| `Client.OpenWeather.SetLanguage` | openweather.py:104-126 | `lang` becomes the normalised request; nothing else changes; the instance is returned |
| `Client.OpenWeather.Exclude` | openweather.py:129-156 | `excludes` becomes the comma join of the matches, or stays as it was when there is none; nothing else changes; the instance is returned |
| `Client.CollectMatches` | openweather.py:139-143 | the nested loops collect exactly the filtered input |
| `Client.CommaJoin` | openweather.py:149-154 | appending `item + ","` for each match and then cutting the last character gives the comma join |
| `Client.OpenWeather.AddOptions` | openweather.py:246-260 | `_add_options` on the instance's current `units`, `lang` and `excludes` (`Options.OptionString` on those fields) |
| `Client.OpenWeather.RequestUrl` | openweather.py:74-76 | the URL `request_forecast` builds: the forecast endpoint, `?lat=`, `&lon=`, `&appid=` with the key, then the options; coordinate formatting is the parameter `fmt` |
| `Client.OpenWeather.ProcessResponse` | openweather.py:175-205 | the reply is the normalised response, and `close()` is called exactly once on every path |
| `Client.OpenWeather.SendRequest` | openweather.py:161-172 | one GET to the given URL; the reply is the normalised answer; the response is closed once |
| `Client.OpenWeather.RequestForecast` | openweather.py:57-78 | bad coordinates give `{"error": "Co-ordinate error"}` and send nothing; good coordinates send exactly one request, to the URL built from the key and the current options |
| `Client.OptionsReadBack` | openweather.py:257-260 | for any valid configuration, the option string splits back into its `units`, `lang` and (when set) `exclude` fields |
| `Client.NewClient` | tests/tests.py:14-16 | the test fixture: a client built with key `"TEST"`, in its initial state, with nothing sent |

## Left out

- HTTP transport: `requests.get` is modelled by the URL log and the `serve` function. Network failures and the exceptions `requests` raises are not modelled.
- JSON decoding internals: the body is given as an already decoded object, or as a decode error with its message. A top-level JSON value that is not an object is not modelled. In the source, that case raises a TypeError at `data["statuscode"] = ...`, which escapes before `close()`.
- Python `float()` parsing is not modelled: each coordinate is given already parsed, together with the rounding to a double. A numeric string passes `_check_coords` but then fails in the `{:.6f}` format. That failure is not modelled: the model takes parsed values.
- An argument for which `float()` raises TypeError (`None`, a list) is not modelled. The code catches only ValueError and OverflowError (openweather.py:222, 228), so that TypeError escapes `_check_coords` and `request_forecast`; `Option<Float>` has no value for it.
- The `{:.6f}` formatting of the coordinates is the `fmt` parameter of `RequestForecast`.
- Printing (`_print_error`, `_print_debug`): console output only. The class methods follow the corrected `_print_debug` (see Findings), which only prints, so the debug flag is stored and does not change any state or reply. The flag is typed `bool`, so Python's acceptance of any value as the flag does not appear.
- `Client.OpenWeather.SetUnit`: with debugging on, the source stores the unit and then raises TypeError from `_print_debug` (openweather.py:100); the model returns the instance.
- `Client.OpenWeather.SetLanguage`: with debugging on, the source stores the language and then raises TypeError from `_print_debug` (openweather.py:125); the model returns the instance.
- `Client.OpenWeather.Exclude`: with debugging on and at least one match, the source stores the exclusions and then raises TypeError from `_print_debug` (openweather.py:155); the model returns the instance.
- `Client.OpenWeather.ProcessResponse`: with debugging on and a decoded body, the source closes the response and then raises TypeError from `_print_debug` (openweather.py:204); the model returns the `data` reply.
- `Client.OpenWeather.SendRequest`: inherits the TypeError of `_process_response` on the data path with debugging on (openweather.py:204); the model returns the reply.
- `Client.OpenWeather.RequestForecast`: with debugging on and accepted coordinates, the source raises TypeError from `_print_debug` (openweather.py:77) before any request is sent; the model sends the request and returns its reply.
- `Text.Lower`: models the ASCII case mapping only. Python's `str.lower()` also maps other characters; for example the Kelvin sign (U+212A) lowers to `k`, so the Kelvin sign followed by `r` is taken as `kr` by the source and falls back to `en` in the model. Python's `str.lower()` can also lengthen a string: U+0130 lowers to the two code points `i` and U+0307. No listed unit or language can arise from such a lengthening, so those answers are unaffected.
- `Client.OpenWeather.constructor`: Python assertions can be switched off (`python -O`), and then the constructor accepts anything. The model keeps the assertions as the constructor's precondition. `Client.ConstructorError` gives the message from each failing assertion.
- `Client.OpenWeather.RequestForecast`: uses the corrected coordinate check (see Findings), so NaN coordinates are rejected there. The source accepts them.
- Python class attributes shared as defaults, the `VERSION` constant, and reassigning the public fields from outside the class are not modelled.
- The `caller` argument of `_check_coords` only appears in error messages, and is not modelled.

## Findings

| source | as written | input that shows it | evidently intended | confidence | as-written member | corrected member |
|---|---|---|---|---|---|---|
| openweather.py:232-243 | every test compares the parsed value with `==`, `>` or `<`, and each of these is False for NaN, so NaN passes all of them | `_check_coords(float("nan"), float("nan"))` returns True, and `request_forecast` would send `lat=nan&lon=nan` | a coordinate that is not a real number is rejected | high; not executed | `Coords.AsWrittenAcceptsNaN` (about `Coords.CheckCoordsAsWritten`) | `Coords.CheckCoords` |
| openweather.py:280-282 | `("[DEBUG]") + msgs` adds a string to the tuple of messages, which raises TypeError; so with debugging on, every call that reaches `_print_debug` raises: `set_unit`, `set_language`, `exclude` with at least one match, `request_forecast` with accepted coordinates (before any request is sent) and `_process_response` on the data path. `exclude` with no match and `request_forecast` with rejected coordinates return before their trace (openweather.py:147, 71) | `OpenWeather(requests, "KEY", True).set_unit("metric")` raises TypeError after storing the unit | the tag as a one-element tuple, `("[DEBUG]",) + msgs`, so the trace prints | high; not executed | `Debug.PrintDebugAsWrittenRaises` (about `Debug.PrintDebugAsWritten`) | `Debug.PrintDebugNeverRaises` (about `Debug.PrintDebug`) |
