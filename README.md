# PSN-Monitor, modelled in Dafny

PSN-Monitor polls the PlayStation Network status page and watches
one country. It fetches the status document, retrying a bounded number of
times. It then extracts that country's outage entries into records, and it
e-mails an alert when an outage appears and a resolution notice when it
clears.

The model covers the three steps of `main.py` that decide what is reported:

- `fetch_psn_status` is `Fetcher.Fetch`. It is a loop over abstract attempt
  outcomes: a response with a status code and a body, or a network error.
  It counts the attempts and the sleeps. `Fetcher.Poll` is its specification.
- `check_psn_status` is `Extractor.CheckStatus`. It is a loop over the
  countries and the status entries of the parsed document, proved equal to
  the function `Extractor.Extract`. Python's value semantics come from module
  `Values`:
  - a dict is an ordered list of fields, and the last field with a key wins;
  - `dict.get` with a default, `in`, `d[k]`, iteration and truthiness;
  - the exceptions each of these raises on a value of the wrong type.

  Every exception is an `Err` result, so the model covers the inputs that
  crash the code as well as the well-formed ones. Module `Text` models
  `str.lower()` and `str.split(".")`.
- The body of the `monitor_psn` loop is `Monitor.Step`. `Monitor.Monitor`
  runs it over a finite sequence of cycles. Each cycle calls the fetch, then
  the extraction, then the notification decision. The fold `Monitor.Run`
  specifies the e-mails sent.

The main theorems:

- The records are the target country's outage entries, normalised one for
  one and in document order (`ExtractorProperties.OneRecordPerOutageEntry`).
  The entries are selected by an independent definition of which entries
  are outages of the target country, with the country name compared up to
  case.
- Each field takes its documented default.
- A non-empty message key without a dot raises `IndexError`.
- A new outage whose records name a device by a non-string value ends the
  monitor with TypeError, because the alert body joins the device names.
- E-mails begin with an alert and alternate between alert and resolution.
  They number as many as the changes between "outage" and "no outage".
- The fetch returns the first 200 body within `MAX_RETRIES` attempts, or
  gives up after exactly `MAX_RETRIES` sleeps.

The time conversion `format_time` is a parameter `parse` of type
`TimeParser`. It gives the UTC and local renderings of a timestamp string,
or None where `strptime` raises. Every such parser rejects the placeholder
"Unknown", because the format `%Y-%m-%dT%H:%M:%S.%f%z` starts with digits.
The configured country is an optional parameter of `Monitor.Monitor`. The network is the parameter `world`,
which gives the outcome of the i-th attempt.

## Model

| member | source | states |
|---|---|---|
| Values.Truthy | main.py:88 | Python's `bool(v)` for a parsed value: false for None, False, zero, and the empty string, list and dict; it decides the guards of main.py:88, 119, 179 and 183 (no contract: a definition) |
| Values.Lookup | main.py:98 | the value a dict holds for a key is present exactly when the key is, and it is the last field with that key |
| Values.Get | main.py:106-111 | `.get(key, default)` succeeds exactly on a dict and gives the key's value or the default; any other value raises AttributeError |
| Values.Contains | main.py:88 | `"countries" in data` is key presence for a dict; element equality for a list and substring for a string; any other value raises TypeError |
| Values.Subscript | main.py:97 | `data["countries"]` succeeds exactly on a dict holding the key, with the key's value; otherwise KeyError or TypeError |
| Values.Iterate | main.py:106-108 | a `for` loop visits a list's elements, a string's characters or a dict's keys, and raises TypeError on anything else |
| Extractor.TargetCountry | main.py:95 | the configured country name, or "India" when none is configured |
| Extractor.FormatTime | main.py:53-61 | the parser's pair of renderings, or ("Unknown", "Unknown") when the value is not a string or the parser fails; the placeholder "Unknown" always gives ("Unknown", "Unknown"), as no parser accepts it |
| Extractor.Collect | main.py:97-123 | the `for`/`append` loops as a fold: each item's records appended in order, the first exception raised ends it (no contract: its properties are `CollectFailureStays`, `CollectFailsAt` and the loop methods) |
| Extractor.DeviceName | main.py:108 | one device's `device.get("deviceName", "Unknown Device")`, AttributeError for a non-dict (no contract: see `ExtractorProperties.DeviceLabels`) |
| Extractor.AffectedService | main.py:119 | `messageKey.split(".")[1] if messageKey else ""` (no contract: its cases are `ExtractorProperties.AffectedServiceCases` and `ExtractorProperties.ServiceFollowsFirstDot`) |
| Extractor.Normalize | main.py:108-121 | the record built from one outage entry, step by step in the code's evaluation order (no contract: see `ExtractorProperties.NormalizedFields`, `NormalizedDevices`, `NormalizedService` and `DotlessKeyRaises`) |
| Extractor.StatusEntry | main.py:107-123 | one status entry's records: its record when statusType lowers to "outage", none otherwise (no contract: `Extractor.StatusOutage` is proved equal to it) |
| Extractor.CountryEntry | main.py:98-106 | one country's records: none unless its name lowers to the target's, else the status loop (no contract: `Extractor.CountryOutages` is proved equal to it) |
| Extractor.Extract | main.py:83-131 | `check_psn_status` as a function: the guard, the subscript, the iteration and the country fold (no contract: see `ExtractorProperties.NoCountriesNoOutages`, `OneRecordPerOutageEntry` and `Extractor.CheckStatus`) |
| Extractor.CheckStatus | main.py:83-131 | the loop over countries and status entries returns exactly what `Extract` specifies, including the first exception raised |
| Extractor.CountryOutages | main.py:97-106 | one country's loop body: nothing for a country not named like the target, else that country's status loop; AttributeError for a non-dict or non-string name |
| Extractor.StatusOutages | main.py:106-123 | the loop over a country's status entries appends one normalised record per outage entry, and raises the first error |
| Extractor.StatusOutage | main.py:107-123 | one status entry: AttributeError for a non-dict or a non-string statusType, nothing unless the type is "outage" in any case, else its normalised record or the error normalising raises |
| Extractor.CollectFailureStays | main.py:97-123 | once an item of the loop raises, the whole loop raises that exception whatever follows |
| Extractor.CollectFailsAt | main.py:97-123 | an item that raises after the earlier items went through makes the loop raise its exception |
| Text.LowerAscii | main.py:101 | `str.lower()` on ASCII letters, character by character (no contract: a definition, used for both comparisons at main.py:101 and 107) |
| Text.Split | main.py:119 | `str.split(".")` always gives at least one piece |
| Text.JoinSplit | main.py:119 | joining the pieces of `split(".")` with dots gives back the string |
| Text.SplitJoin | main.py:119 | splitting the join of dot-free pieces gives back the pieces |
| Text.SplitPieces | main.py:119 | `split(".")` has one piece more than the string has dots, and no piece contains a dot |
| Text.SecondPieceIffDot | main.py:119 | `split(".")` has a second piece exactly when the string contains a dot |
| ExtractorProperties.NoCountriesNoOutages | main.py:88-90 | a falsy document, or a dict without "countries", yields no records |
| ExtractorProperties.OneRecordPerOutageEntry | main.py:97-123 | when extraction succeeds, its records are the normalised outage entries of the target country, one for one, in document order |
| ExtractorProperties.SelectedAreTargetOutages | main.py:101-107 | every selected entry belongs to a country named like the target, up to case, and has statusType "outage" in any case |
| ExtractorProperties.RecordsAreForTarget | main.py:101-114 | every record's country equals the target country up to case |
| ExtractorProperties.StatusesProduce | main.py:106-123 | the records of one country are its outage entries normalised one for one, in order |
| ExtractorProperties.CountriesProduce | main.py:97-123 | the records of the country loop are the selected outage entries of all countries, normalised one for one, in order |
| ExtractorProperties.DeviceLabels | main.py:108 | the device list gives one name per device, in order, "Unknown Device" where the name is missing; it raises exactly when a device is not a dict |
| ExtractorProperties.NormalizedDevices | main.py:108 | a record's affectedDevices is empty without a device list, and otherwise has the list's length and order with the device names |
| ExtractorProperties.NormalizedFields | main.py:109-117 | a record keeps the country name as given, statusId or "Unknown", the en-GB text or "No message available", the start times of `format_time`, and ("Unknown", "Unknown") without a startDate |
| ExtractorProperties.AffectedServiceCases | main.py:119 | the service is "" for an absent or empty key, AttributeError for a non-string key, IndexError for a dotless key, and defined for a key with a dot |
| ExtractorProperties.SecondPieceAfterFirstDot | main.py:119 | `split(".")[1]` is the dot-free text after the first dot, up to the next dot or the end |
| ExtractorProperties.ServiceFollowsFirstDot | main.py:119 | the affected service of a dotted key is the text between its first dot and the next dot or the end |
| ExtractorProperties.NormalizedService | main.py:110-119 | a record's affectedService is "" for a falsy message key, otherwise the key is a dotted string and the service is its second piece |
| ExtractorProperties.DotlessKeyRaises | main.py:108-119 | normalising an outage entry whose devices and message texts go through but whose message key is a non-empty string without a dot raises IndexError |
| ExtractorProperties.ExtractedKeysHaveDots | main.py:97-123 | when the extraction goes through, every selected outage entry with a truthy message key has a string key containing a dot; otherwise the extraction raises |
| ExtractorProperties.SampleKey | main.py:119 | the key "a.StreamingService.b" gives the service "StreamingService" |
| ExtractorProperties.SampleRecord | main.py:106-121 | a concrete outage entry normalises to the expected record with its defaults |
| ExtractorProperties.SampleEntries | main.py:107 | a status entry typed "Outage" yields its record, and one of another type yields nothing |
| ExtractorProperties.SampleJapanSkipped | main.py:101-102 | a country not named like the target contributes nothing |
| ExtractorProperties.SampleIndiaReported | main.py:98-123 | the country "india" matches target "India" and contributes its one outage record |
| ExtractorProperties.SampleExtraction | main.py:83-131 | a two-country document yields the one outage record of the target country |
| Fetcher.Poll | main.py:66-81 | the body of the first 200 response among the attempts still allowed, or None; it returns a body only while attempts remain |
| Fetcher.Fetch | main.py:63-81 | at most MAX_RETRIES attempts; a returned body is the first 200 response's, after one sleep per earlier failure; giving up takes exactly MAX_RETRIES attempts and sleeps; none at all when MAX_RETRIES ≤ 0 |
| Fetcher.PollFindsFirstSuccess | main.py:66-75 | the first 200 response before the attempts run out is what the fetch returns |
| Fetcher.PollGivesUp | main.py:66-81 | when every allowed attempt fails, the fetch returns None |
| Fetcher.PollOnlyFromSuccess | main.py:66-75 | a returned body always comes from a 200 response among the allowed attempts, all earlier ones having failed |
| Monitor.Step | main.py:179-185 | the flag becomes "reports non-empty"; an alert with the reports is sent exactly on false→true, a resolution exactly on true→false, nothing otherwise |
| Monitor.Run | main.py:173-185 | the flag and e-mails after a sequence of cycles, starting from `outage_active = False` (no contract: see `RunFlag`, `RunAlternates` and `RunCountsChanges`) |
| Monitor.RunFlag | main.py:173-185 | after every cycle the flag says whether that cycle reported outages |
| Monitor.RunAlternates | main.py:173-185 | the e-mails start with an alert, alternate between alert and resolution, and every alert carries records; the flag is up exactly when the last e-mail was an alert |
| Monitor.RunCountsChanges | main.py:175-185 | the number of e-mails equals the number of changes between outage and no outage |
| Monitor.RepeatedOutageIsQuiet | main.py:179-181 | an outage cycle after an outage cycle sends nothing |
| Monitor.HealthyIsQuiet | main.py:183-185 | a clean cycle after a clean cycle sends nothing |
| Monitor.NewOutageAlerts | main.py:179-181 | an outage cycle after a clean one sends one alert with its records |
| Monitor.RecoveryResolves | main.py:183-185 | a clean cycle after an outage cycle sends one resolution notice |
| Monitor.TwoOutageCyclesAlertOnce | main.py:179-185 | two consecutive outage cycles send one alert, for the first |
| Monitor.OutageThenRecovery | main.py:179-185 | an outage cycle then a clean cycle send an alert, then a resolution |
| Monitor.Notify | main.py:179-185 | a cycle's e-mail decision is `Step`'s, except that a new alert whose records hold a non-string device name raises TypeError (email_helper.py:25 joins the names) |
| Monitor.UnnamedDeviceStopsAlert | main.py:179-181 | a new outage with a `null` device name ends the monitor with TypeError instead of alerting |
| Monitor.CycleReports | main.py:176-177 | one cycle's fetch followed by the extraction (no contract: a definition, used by `Monitor.Monitor`) |
| Monitor.Body | main.py:81 | a fetch that gave up hands the extraction a falsy None |
| Monitor.FailedFetchReportsNothing | main.py:80-90 | a cycle whose fetch gives up reports no outage |
| Monitor.Monitor | main.py:165-188 | watching the configured country or "India", each completed cycle's reports are its fetch and extraction; the e-mails are `Run` of those reports, alternate starting with an alert, number the changes, and every alert sent can be rendered; the loop ends at the first exception, from the extraction or from building an alert |

## Left out

- Loading `config.json` and the constants read from it are not modelled (main.py:13-35). `MAX_RETRIES` and the target country are parameters. A `CountryName` that is not a string is not modelled.
- Logging is not modelled: it has no effect on results.
- The SMTP sending and the e-mail HTML are not modelled (main.py:134-163, email_helper.py). A notification is the datatype `Notification`, with the records of the alert. `send_email_notification` catches every exception raised while sending. Building the alert body happens before that `try`, and its one exception, the `', '.join` of a non-string device name at email_helper.py:25, is modelled by `Monitor.Notify`.
- `requests.get`, the 10-second timeout and `RETRY_DELAY` are outside the model. The network is the `world` parameter, and a sleep is only counted.
- Fetcher.Fetch: a 200 response whose body is not JSON counts as a failed attempt. That is how requests 2.27 and later behave, where the decode error is a `RequestException`. Older versions raise an uncaught `ValueError`, which is not modelled.
- `format_time` is not modelled internally (main.py:53-61): `strptime`, the Asia/Kolkata conversion and `strftime` are the parameter `parse`.
- Text.LowerAscii lowers ASCII letters only; Unicode case mapping is not modelled.
- Monitor.Monitor runs a finite sequence of cycles instead of `while True`. The hour-long `time.sleep(CHECK_INTERVAL)` between cycles is not modelled.
- Monitor.Monitor states a crash only as the end of its loop; the process exit that follows is not modelled.
- JSON numbers are reals and are used only for truthiness. A number always makes `in`, `.get`, iteration and `.split` raise, as in Python.
- A dict with a repeated key keeps every field. Lookup takes the last one, as `json.loads` does, but iterating such a dict would visit the key twice, where Python visits it once.
