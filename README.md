# Currency-rate core: a Dafny model

This project models the sequential core of a desktop currency-rate app. The app pulls the
daily rates of the Central Bank of Russia, caches them per day, keeps a short history per
currency, reads a JSON configuration and bumps its own semantic version. The model has
four parts:

- **`CBRApiClient`** (`core/api_client.py`), in modules `RatesCache` and `CbrClient`. It
  covers:
  - the shape check of a provider document;
  - the date a document is filed under;
  - the cache directory, as a map from file name to file;
  - `get_rates`: today's lookup, up to three requests with 2 s and 4 s pauses, saving
    under the document's own date, and the eight-day fallback scan;
  - `clear_old_cache`, the age-based pruning.

  `ApiClient` is a class. Its fields are the cache directory and `last_update`, plus a ghost
  request counter and a ghost delay log. The network is a script of three replies. The
  clock is the parameters `today` (a date) and `now` (microseconds).
- **`DataHandler`** (`core/data_handler.py`), in module `DataHandling`. It is a class with
  the current-rates map and the per-currency history. Histories are capped at 14 points.
  `update_data` is proved against a function of the old state. The cap, the frame, full
  success, and the changes kept after an exception part-way are proved about that function
  for all tables and documents.
- **Configuration helpers** (`core/__init__.py`), in module `Config`: `get_config_value`,
  `deep_merge` and `validate_config`. Each is a method with its loop, proved against a
  function, and the promised properties are lemmas about that function.
- **`update_version`** (`update_version.py`), in module `VersionBump`. It covers the regular
  expression `__version__ = "(\d+)\.(\d+)\.(\d+)"`, matched by hand as `re.search` and
  `re.sub` do, then the bump and the rewrite of the file text.

Shared modules:

- `PyValues`: the JSON values `json.load` produces, and the Python operators on them
  (`in`, `[]`, `.get`, `-`, `all(...)`, truthiness). Each operator returns either a value
  or the exception Python would raise.
- `Text`: ASCII decimal digits, `str.startswith`, `str.endswith`, substring `in`,
  `str.split` and `'.'.join`.
- `Calendar`: `datetime.date` validity, `toordinal`, subtracting days, `strftime` and
  `strptime('%Y-%m-%d')`.

Facts about the code that the model keeps:

- a provider date later than today is stored under that date;
- an HTTP 404 is a `RequestException` and is retried;
- `Nominal` is checked for presence only;
- the validator checks the four fixed currencies USD, EUR, GBP and CNY.

## Model

| member | source | states |
|---|---|---|
| PyValues.Contains | core/api_client.py:180 | `key in x` on a dict is key membership; it raises exactly when `x` is not a dict, str or list |
| PyValues.GetItem | core/api_client.py:184 | `x[key]` gives a value exactly when `x` is a dict holding `key`, and then that key's value |
| PyValues.DictGet | core/api_client.py:177 | `x.get(key, default)` works only on a dict, giving the stored value or the default |
| PyValues.AllIn | core/api_client.py:172 | `all(k in x for k in keys)` is True exactly when every key is in `x`; it raises only through the first test |
| PyValues.Sub | core/data_handler.py:48 | `a - b` is defined exactly for numbers, has the difference of their values, and is an int exactly when both are ints |
| Text.Split | core/__init__.py:39 | `str.split` on one character never gives an empty list |
| Text.JoinSplit | core/__init__.py:39 | joining the pieces of a split with the separator gives the original string back |
| Text.SplitJoin | core/__init__.py:39 | splitting the join of separator-free pieces gives the pieces back |
| Text.SplitPiecesFree | core/__init__.py:39 | no piece of a split contains the separator |
| Text.SplitFirstPiece | core/api_client.py:91 | `s.split('T')[0]` is the text before the first `T` |
| Calendar.PrevDay | core/api_client.py:102 | the day before a valid date is valid and has ordinal one less; there is none exactly before 0001-01-01 |
| Calendar.DaysBefore | core/api_client.py:102 | `today - timedelta(days=k)` exists exactly when its ordinal is at least 1, and then it is `k` days before `today` |
| Calendar.YearStep | core/api_client.py:102 | the closed day count of the years before `y` grows by the length of year `y - 1` |
| Calendar.OrdinalInjective | core/api_client.py:102 | two valid dates with the same ordinal are equal |
| Calendar.Strptime | core/api_client.py:92 | `strptime(s, '%Y-%m-%d')` accepts only valid calendar dates |
| Calendar.StrptimeIsoFormat | core/api_client.py:92 | parsing the zero-padded `YYYY-MM-DD` form of a valid date gives that date |
| Calendar.StrptimeUnpadded | core/api_client.py:92 | three sample strings: `2024-3-1` (unpadded fields) parses, while `2024-02-30` and `2024-03-01 ` (trailing text) are rejected |
| Calendar.CompactFormatInjective | core/api_client.py:61 | distinct valid dates have distinct `%Y%m%d` forms |
| RatesCache.CheckCurrenciesIff | core/api_client.py:179-188 | the currency loop passes exactly when `Valute` is a dict holding every listed currency with all seven fields |
| RatesCache.ValidatePayload | core/api_client.py:167-190 | a document that passes is a dict |
| RatesCache.ValidatePayloadIff | core/api_client.py:167-190 | `_validate_data` is True exactly when the three top-level keys are present and each of USD, EUR, GBP and CNY is present with all seven fields |
| RatesCache.SampleWellFormed | core/api_client.py:171-186 | a provider document with the four currencies has the accepted shape, whatever its nominal |
| RatesCache.ValidateIgnoresNominal | core/api_client.py:185-190 | a nominal of 0, a negative one or a non-number still passes: only presence is checked |
| RatesCache.CacheDateFromData | core/api_client.py:86-95 | the date is valid; it raises exactly when `Date` is present and not a string; with no `Date` it is today |
| RatesCache.CacheDateFromString | core/api_client.py:88-95 | a string `Date` gives the date its part before `T` parses to, and today when that part does not parse |
| RatesCache.CacheDateOfTimestamp | core/api_client.py:86-92 | a timestamp `YYYY-MM-DDT...` is filed under its own date whatever today is, so a future date is not clamped |
| RatesCache.CacheFileNameInjective | core/api_client.py:59-61 | two days share a cache file name `rates_YYYYMMDD.json` exactly when they are equal, and every such name matches the pruning pattern |
| RatesCache.Load | core/api_client.py:63-74 | a document comes back exactly when the day's file exists and parses |
| RatesCache.Save | core/api_client.py:76-84 | after a save, the directory's names are the old ones plus the day's file |
| RatesCache.LoadAfterSave | core/api_client.py:63-84 | loading the saved day gives the saved document; every other day loads as before |
| RatesCache.Window | core/api_client.py:101-102 | the `k`-th of the eight days scanned exists exactly when its ordinal would be at least 1, and is then the valid date `k` days before today |
| RatesCache.ScanFrom | core/api_client.py:101-106 | the scan returns only non-empty documents |
| RatesCache.FirstHit | core/api_client.py:101-106 | the first day from `k` that has a hit or no date is at least `k`; below 8 it does have a hit or no date |
| RatesCache.FirstHitIsFirst | core/api_client.py:101-106 | every day before the first hit exists and has no hit |
| RatesCache.ScanFromFirstHit | core/api_client.py:101-109 | the scan returns the hit of the first day that has one, and nothing when none has |
| RatesCache.WindowHolds | core/api_client.py:101-102 | a valid date 0 to 7 days back sits at its distance from today in the window |
| RatesCache.FallbackWithinWindow | core/api_client.py:97-109 | the fallback returns the hit of the newest day in the window, never newer than today or older than seven days; with no result, no day in the window has a hit |
| RatesCache.Pruned | core/api_client.py:199-208 | the names left are the old ones minus the expired files, each file unchanged |
| RatesCache.PrunedIsRemoval | core/api_client.py:199-208 | pruning is the removal of exactly the expired names |
| RatesCache.PrunedCount | core/api_client.py:199-208 | the files left plus the files removed are all the files; no file outside `rates_*.json` is removed |
| RatesCache.FreshFileSurvives | core/api_client.py:199-208 | a file saved at `now` survives pruning at `now`; more than `days_to_keep` whole days later it is removed |
| CbrClient.TryOutcome | core/api_client.py:127-145 | an attempt ends in a network error exactly for a `RequestException`; a fetched document is the reply's own, filed under a valid date |
| CbrClient.FetchedIff | core/api_client.py:133-145 | a document gets through exactly when it has the accepted shape and a string `Date`; it is then filed under the date that `Date` gives, or today |
| CbrClient.BackoffDoubles | core/api_client.py:155 | each pause is twice the one before, and none is shorter than `RETRY_DELAY` |
| CbrClient.Delays | core/api_client.py:155 | the `i`-th pause after attempt `from` is `RETRY_DELAY * 2 ** (from + i)` |
| CbrClient.Attempts | core/api_client.py:126-163 | the loop from `attempt` sends at least one request and no more than the attempts left |
| CbrClient.GetRatesSpec | core/api_client.py:111-165 | no request is made exactly when today's file holds a non-empty document; at most three are made |
| CbrClient.FirstAnswer | core/api_client.py:126-163 | the loop stops at the first attempt that is not a network error, or at the last attempt |
| CbrClient.AttemptsOutcome | core/api_client.py:126-163 | the loop sends `j - k + 1` requests with pauses between them, then returns the saved document with `last_update` set, or the fallback with nothing written |
| CbrClient.RetryStep | core/api_client.py:147-155 | a network error before the last attempt is one request and one pause, followed by the rest of the loop |
| CbrClient.RetryPlan | core/api_client.py:147-155 | a retried network error moves the loop on by one attempt and one pause |
| CbrClient.StopPlan | core/api_client.py:145-163 | the attempt that stops the loop decides the whole run: its document saved and returned with `last_update` set, or the fallback |
| CbrClient.GetRatesOutcome | core/api_client.py:111-165 | a hit for today is returned with no request, no write and `last_update` set; otherwise the loop ends at the first answer as stated |
| CbrClient.EarlyPauses | core/api_client.py:155 | the first two pauses are 2 s and then 4 s |
| CbrClient.RetrySchedule | core/api_client.py:126-155 | at most three requests; the pauses are 2 s then 4 s, one fewer than the requests, so none follows the last attempt |
| CbrClient.AllFailuresRetried | core/api_client.py:147-153 | three `RequestException`s mean three requests, pauses of 2 s and 4 s, the fallback result, no write and no `last_update` |
| CbrClient.PayloadDateDecidesNextLookup | core/api_client.py:119-145 | a valid first reply is saved once under its own date and returned with one request; the next call is served from the cache exactly when that date is today |
| CbrClient.PruneStep | core/api_client.py:201-207 | one pass of the pruning loop removes the file exactly when it is expired, and counts it |
| CbrClient.ApiClient.constructor | core/api_client.py:36-49 | no `last_update`, over the existing cache directory, nothing sent or slept |
| CbrClient.ApiClient.LoadFromCache | core/api_client.py:63-74 | returns the parsed document of the day's file, and nothing when it is missing or unreadable |
| CbrClient.ApiClient.SaveToCache | core/api_client.py:76-84 | the directory becomes `Save` of the old one; nothing else changes |
| CbrClient.ApiClient.LastAvailableCached | core/api_client.py:97-109 | the loop returns the fallback scan of the directory |
| CbrClient.ApiClient.TryFetch | core/api_client.py:127-145 | the `try` block's outcome is `TryOutcome`; only a fetched document is saved under its date and sets `last_update` |
| CbrClient.ApiClient.Answer | core/api_client.py:145-163 | the attempt that stops the loop returns its document, or the fallback scan after any exception |
| CbrClient.ApiClient.GetRates | core/api_client.py:111-165 | result, directory, `last_update`, requests and pauses are those of `GetRatesSpec` |
| CbrClient.ApiClient.RequestLoop | core/api_client.py:126-165 | result, directory, `last_update`, requests and pauses are those of `Attempts` from attempt 0 |
| CbrClient.ApiClient.ClearOldCache | core/api_client.py:192-210 | the directory becomes `Pruned` of the old one, and the count is the number of expired files |
| DataHandling.MakePoint | core/data_handler.py:45-49 | a point is built exactly when `Value` and `Previous` are present numbers; it holds the stamp, `Value` and `Value - Previous` |
| DataHandling.RefusedWithoutValute | core/data_handler.py:31-32 | a falsy document, or a dict without `Valute`, gives False with nothing changed; a truthy number makes the `in` test raise |
| DataHandling.RecordAllFrame | core/data_handler.py:36-38 | a currency outside the loop, or absent from a dict `Valute`, keeps its rate entry and history |
| DataHandling.UntrackedUnchanged | core/data_handler.py:15-38 | untracked currencies, and tracked ones absent from the document, keep their rate entry and history |
| DataHandling.RecordAllSuccess | core/data_handler.py:36-53 | when every present point builds, each present currency gets its entry and exactly one new point at the end of its capped history |
| DataHandling.TrackedDistinct | core/data_handler.py:15 | the tracked currencies are distinct |
| DataHandling.UpdateSucceeds | core/data_handler.py:31-57 | a document whose tracked entries have numeric `Value` and `Previous` gives True and records every present tracked currency |
| DataHandling.AppendKeepsNewest | core/data_handler.py:45-53 | a history of at most 14 points stays within 14; the new point goes last, and only the oldest is dropped, the rest keeping their order |
| DataHandling.RecordAllKeepsCap | core/data_handler.py:36-53 | the loop keeps every history within 14 points and adds keys only for currencies it visits |
| DataHandling.UpdateKeepsBounded | core/data_handler.py:21-61 | `update_data` keeps the invariant: only tracked currencies have entries, each history has at most 14 points |
| DataHandling.RecordAllSplit | core/data_handler.py:36-53 | the loop over `cs + [c] + rest`, when the part over `cs` does not raise, is that part, then the pass over `c`, then the rest unless that pass raises |
| DataHandling.FailAt | core/data_handler.py:36-53 | for any tables and any dict `Valute` whose first failing tracked currency is `Tracked[k]`: the loop raises, earlier currencies are recorded in full, `Tracked[k]` keeps its new rate entry and its history without a new point, and later currencies keep their entries |
| DataHandling.PartialFailure | core/data_handler.py:34-61 | in that case `update_data` returns False and keeps exactly the tables the interrupted loop left, as `FailAt` describes them |
| DataHandling.PartialFailureKeepsChanges | core/data_handler.py:34-61 | a worked example on empty tables: with USD complete and EUR lacking `Previous`, the result is False, USD is recorded, and EUR has its rate entry and an empty history |
| DataHandling.SliceLastDays | core/data_handler.py:83-85 | `h[-days:]` is the last `min(days, len)` points for `days >= 1`, the whole list for 0, and the list without its first `-days` points for negative `days` |
| DataHandling.DataHandler.constructor | core/data_handler.py:11-15 | both maps start empty, which satisfies the invariant |
| DataHandling.DataHandler.UpdateData | core/data_handler.py:21-61 | result and new maps are those of `UpdateSpec` of the old maps |
| DataHandling.DataHandler.RecordOne | core/data_handler.py:36-53 | one pass of the loop changes the maps as `RecordCurrency` says, and reports whether it raised |
| DataHandling.DataHandler.GetCurrentRates | core/data_handler.py:63-70 | returns the current-rates map |
| DataHandling.DataHandler.GetHistoricalData | core/data_handler.py:72-85 | returns `h[-days:]` of the currency's history, and `[]` for a currency without one |
| Config.GetConfigValue | core/__init__.py:13-47 | the loop returns `ConfigValue`: the default for a falsy config or empty keys, else the value at the path, else the default |
| Config.AtSnoc | core/__init__.py:41-47 | one more key looks that key up in the dict the path reaches, and fails on a non-dict |
| Config.AtIff | core/__init__.py:41-47 | a path reaches a value exactly when every step is a dict holding the next key |
| Config.DottedMatchesParts | core/__init__.py:37-39 | a non-empty dotted key looks up the same value as the list of its parts; a list of dot-free keys matches its dotted join, except `[""]` |
| Config.TwoLevelLookup | core/__init__.py:26-32 | `['api', 'timeout']` and `'api.timeout'` give the inner value when present and the default otherwise |
| Config.EmptyKey | core/__init__.py:34-39 | the dotted key `""` gives the default, while the list `[""]` looks up the key `""` |
| Config.MergeShape | core/__init__.py:60-72 | the merged keys are those of both; a key only in the default keeps its value; the user value wins unless both are dicts, which are merged |
| Config.MergeIdempotent | core/__init__.py:49-72 | merging the same user config a second time changes nothing |
| Config.MergeSelf | core/__init__.py:49-72 | a config merged into itself is unchanged |
| Config.UserValueWins | core/__init__.py:49-72 | every non-dict value the user config holds at a path is the merged value at that path |
| Config.DeepMerge | core/__init__.py:49-72 | the loop over a copy returns `Merge(d, u)`, and the arguments are values it cannot change |
| Config.CheckApi | core/__init__.py:187-192 | the `api` block appends its errors in order, or passes on the AttributeError of `.get` |
| Config.CheckData | core/__init__.py:194-199 | the `data` block appends its errors in order, or passes on the AttributeError of `.get` |
| Config.ValidateConfig | core/__init__.py:168-201 | the loop and the two blocks return `Validate(config)` |
| Config.MissingOfDict | core/__init__.py:181-184 | the missing-section errors of a dict config are for `api`, `data`, `ui`, in that order |
| Config.GetWithDefault | core/__init__.py:189-198 | with a default of the right type, `.get` gives a wrong type exactly when the field is present with a wrong type |
| Config.ApiSectionOfDict | core/__init__.py:187-192 | the `api` errors are the timeout error and then the retries error, each exactly when that field is present and mistyped |
| Config.DataSectionOfDict | core/__init__.py:194-199 | the `data` errors are the chart-days error and then the cache-enabled error, each exactly when that field is present and mistyped |
| Config.ValidateLists | core/__init__.py:178-201 | for a dict config it raises exactly when `api` or `data` is a non-dict; otherwise it lists each condition that holds, in the checking order |
| Config.ValidatePassesIff | core/__init__.py:178-201 | the list is empty exactly when all sections are present, `api` and `data` are dicts, and no checked field is mistyped |
| VersionBump.DigitsRun | update_version.py:29 | the run read by `\d+` is all digits and stops at a non-digit |
| VersionBump.Decimal | update_version.py:66 | `str(n)` is a non-empty string of digits |
| VersionBump.NumDecimal | update_version.py:38-66 | `int(str(n)) == n` |
| VersionBump.NumberThen | update_version.py:29 | a number followed by the closing character ends inside the text, after its start |
| VersionBump.GroupsFrom | update_version.py:29 | `n` groups read give `n` numbers and end inside the text |
| VersionBump.MatchAt | update_version.py:29 | a match at `i` ends after `i` and inside the text |
| VersionBump.Search | update_version.py:29 | `re.search` finds a real match at or after the start |
| VersionBump.SearchIsLeftmost | update_version.py:29 | no attempt before the found position matches; a failed search means no match anywhere |
| VersionBump.SearchFinds | update_version.py:29 | a match with none before it is what the search finds |
| VersionBump.GroupsFromText | update_version.py:29 | the text of digit runs, each closed by `.` or the final quote, reads back as their numbers |
| VersionBump.LineMatchesAt | update_version.py:29-73 | the replacement line for a version is a match for exactly that version |
| VersionBump.LineText | update_version.py:66-73 | the replacement line is the prefix and three digit runs spelling the version |
| VersionBump.BumpCases | update_version.py:38-63 | `major`, `minor` and `patch` give (M+1,0,0), (M,m+1,0) and (M,m,p+1); only these types are accepted; each bump is strictly greater |
| VersionBump.SubstituteUnmatched | update_version.py:69-76 | text with no match is copied unchanged |
| VersionBump.SubstituteFirst | update_version.py:69-76 | `re.sub` copies the text before the first match, puts the replacement there and goes on after the match |
| VersionBump.NoMatchUnchanged | update_version.py:69-76 | with no match at all, `re.sub` returns the text unchanged |
| VersionBump.RewriteSplits | update_version.py:69-76 | the new content is the text before the first match, the new line, and the rewritten rest |
| VersionBump.RewriteFindsLine | update_version.py:29-76 | the first match in the new content is the new version's line, where the old first match was |
| VersionBump.UpdateReadsBack | update_version.py:29-83 | a found match with a known type returns `M.m.p`, and reading the new content finds exactly that version |
| VersionBump.VersionFile.constructor | update_version.py:24-26 | the file holds the given text |
| VersionBump.VersionFile.UpdateVersion | update_version.py:13-83 | no match or an unknown type returns False and leaves the file alone; otherwise it returns `UpdateSpec`'s version and writes its content |

## Left out

- Network: the HTTP session, its timeout, the User-Agent header and `raise_for_status` are
  not modelled. Each attempt is one scripted `Reply`. A `RequestException` of any kind
  (connection error, timeout, any HTTP error status including 404) is `RequestFailed`.
- A body that is not JSON is `RequestFailed`, which holds for `requests` 2.27 or later,
  where `response.json()` raises a `RequestException`. Before 2.27 it raises a plain
  `ValueError`, which `except ValueError` turns into the fallback with no retry. In the
  model, that case is the `Unexpected` reply.
- Real sleeping: `time.sleep` is an entry in a ghost delay log.
- The clock: `date.today()` and `datetime.now()` are the parameters `today` and `now`.
  File creation times are given in microseconds.
- One instant per call: the source reads `date.today()` separately in `get_rates`, in
  `_get_cache_date_from_data` and in the fallback loop. It reads `datetime.now()` once per
  file inside the `clear_old_cache` loop. The model uses one `today` and one `now` per call,
  so a call that crosses midnight is not modelled.
- RatesCache.AgeDays divides a difference of epoch microseconds. The source subtracts two
  naive local datetimes, `datetime.fromtimestamp(getctime)` and `datetime.now()`. Across a
  daylight-saving change these differ by the offset shift, so `.days` can differ by one
  from the model's age.
- RatesCache.Save gives the saved file ctime `now`, which is Unix `st_ctime` (changed by a
  rewrite). On Windows `getctime` is the creation time, which a rewrite leaves unchanged;
  that platform is not modelled.
- The cache directory `cache/` is the map itself: files are keyed by bare name, as
  `os.listdir` reports them.
- Cache files: `os.path.exists`, `open`, `json.load` and `json.dump` become a map from file
  name to file. A file that fails to load is `Unreadable`.
- RatesCache.Save: a failed write, which the source logs and ignores, is not modelled. A
  save always succeeds.
- `clear_old_cache`: an error from `os.listdir` or `os.remove` is not modelled. The source
  logs it and stops.
- `_ensure_cache_dir` is not modelled: the directory is assumed to exist.
- `DataHandler._save_to_file` is not modelled: it catches its own errors, so it is a no-op
  here. `load_from_file` is not modelled either: it is disk input.
- `load_config`, `save_config`, `get_cache_dir`, `get_data_dir` and
  `setup_logging_from_config` are file I/O and logging setup, and are not modelled.
- Logging and `print` output are not modelled.
- The calculator, the Qt user interface, `main.py` and the script entry point of
  `update_version.py` (argument parsing, `sys.exit`) are not modelled.
- Reading and writing `version.py` is a `content` field of `VersionFile`.
- Aliasing: the model does not capture that
  - `get_current_rates` returns the handler's own dict;
  - history lists are shared objects;
  - `deep_merge` shares nested values between its result and its arguments.

  Values here are immutable, so later mutation through an alias is not modelled.
- Dict insertion order is not modelled. It is visible only in the iteration order of
  `deep_merge` and `clear_old_cache`, and it does not change their results.
- `\d` in Python's `re` matches every Unicode decimal digit. Here only ASCII digits
  count, for both `strptime` and the version pattern.
- `strftime('%Y')` is zero-padded to four digits. Some C libraries do not pad years
  before 1000.
- `float` values are exact reals: `Value - Previous` has no IEEE rounding.
- `get_config_value` with keys that are neither a string nor a list of strings is not
  modelled.
- `DataHandler.update_data` with a `Valute` that is a string or list is handled by the
  `in` and `[]` models. Exceptions outside `TypeError`, `KeyError`, `AttributeError` and
  `ValueError` are not distinguished.
- CbrClient.Attempts: its own contract bounds only the number of requests. The full
  schedule is stated by AttemptsOutcome, RetrySchedule and GetRatesOutcome.
- The `return None` after the request loop is unreachable: the last attempt always
  returns. It is kept as the method's final statement.
