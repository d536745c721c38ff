/** The pure parts of the CBR rate client: payload validation, the cache file
    names, the date a payload is filed under, the on-disk cache directory as a
    map from file name to file, and the age-based pruning rule. */
module RatesCache {
  import opened Text
  import opened PyValues
  import opened Calendar

  const RequiredKeys := ["Date", "PreviousDate", "Valute"]
  const RequiredCurrencies := ["USD", "EUR", "GBP", "CNY"]
  const RequiredFields := ["ID", "NumCode", "CharCode", "Nominal", "Name", "Value", "Previous"]

  // ---------------------------------------------------------------------
  // _validate_data

  /** The loop over the required currencies: each must be `in` the `Valute`
      value and its entry must hold every required field. */
  function CheckCurrencies(valute: Json, currencies: seq<string>): (r: Py<bool>)
    ensures r == Ok(true) && currencies != [] ==> valute.JObj?
    decreases |currencies|
  {
    if currencies == [] then Ok(true)
    else match Contains(valute, currencies[0])
      case Raise(e) => Raise(e)
      case Ok(false) => Ok(false)
      case Ok(true) =>
        match GetItem(valute, currencies[0])
        case Raise(e) => Raise(e)
        case Ok(entry) =>
          match AllIn(entry, RequiredFields)
          case Raise(e) => Raise(e)
          case Ok(false) => Ok(false)
          case Ok(true) => CheckCurrencies(valute, currencies[1..])
  }

  /** `_validate_data(data)`: the three top-level keys, then each required
      currency and its fields. A non-dict payload makes Python raise (from
      `in` or from `data.get`) or answer False. */
  function ValidatePayload(data: Json): (r: Py<bool>)
    ensures r == Ok(true) ==> data.JObj?
  {
    match AllIn(data, RequiredKeys)
    case Raise(e) => Raise(e)
    case Ok(false) => Ok(false)
    case Ok(true) =>
      match DictGet(data, "Valute", JObj(map[]))
      case Raise(e) => Raise(e)
      case Ok(valute) => CheckCurrencies(valute, RequiredCurrencies)
  }

  /** An entry carries a field when Python's `field in entry` is True. */
  predicate HasAllFields(entry: Json) {
    forall i :: 0 <= i < |RequiredFields| ==> Contains(entry, RequiredFields[i]) == Ok(true)
  }

  /** The shape `_validate_data` accepts, stated independently of its loops. */
  predicate WellFormedPayload(data: Json) {
    && data.JObj?
    && "Date" in data.fields && "PreviousDate" in data.fields && "Valute" in data.fields
    && data.fields["Valute"].JObj?
    && forall i :: 0 <= i < |RequiredCurrencies| ==>
         && RequiredCurrencies[i] in data.fields["Valute"].fields
         && HasAllFields(data.fields["Valute"].fields[RequiredCurrencies[i]])
  }

  lemma {:induction false} CheckCurrenciesIff(valute: Json, currencies: seq<string>)
    requires currencies != []
    ensures CheckCurrencies(valute, currencies) == Ok(true) <==>
      valute.JObj? && forall i :: 0 <= i < |currencies| ==>
        currencies[i] in valute.fields && HasAllFields(valute.fields[currencies[i]])
    decreases |currencies|
  {
    var c := currencies[0];
    if valute.JObj? && c in valute.fields {
      var entry := valute.fields[c];
      var all := AllIn(entry, RequiredFields);
      if all == Ok(true) {
        assert HasAllFields(entry);
        if |currencies| > 1 {
          CheckCurrenciesIff(valute, currencies[1..]);
          assert forall i :: 1 <= i < |currencies| ==> currencies[i] == currencies[1..][i - 1];
        } else {
          assert CheckCurrencies(valute, currencies[1..]) == Ok(true);
        }
      } else {
        assert !HasAllFields(entry);
      }
    }
  }

  /** `_validate_data` answers True exactly for payloads of the accepted shape. */
  lemma ValidatePayloadIff(data: Json)
    ensures ValidatePayload(data) == Ok(true) <==> WellFormedPayload(data)
  {
    if data.JObj? && AllIn(data, RequiredKeys) == Ok(true) {
      CheckCurrenciesIff(data.fields["Valute"], RequiredCurrencies);
      assert RequiredKeys[0] in data.fields && RequiredKeys[1] in data.fields && RequiredKeys[2] in data.fields;
    }
  }

  /** One currency entry of the provider's document with the given nominal. */
  function Entry(code: string, nominal: Json): Json {
    JObj(map["ID" := JStr("R0"), "NumCode" := JStr("000"), "CharCode" := JStr(code), "Nominal" := nominal,
             "Name" := JStr(code), "Value" := JFloat(90.0), "Previous" := JFloat(89.5)])
  }

  lemma EntryHasAllFields(code: string, nominal: Json)
    ensures HasAllFields(Entry(code, nominal))
  {
    var m := Entry(code, nominal).fields;
    assert forall f :: f in RequiredFields ==> f in m;
  }

  /** A provider document whose four required currencies all have the given nominal. */
  function SamplePayload(nominal: Json): Json {
    JObj(map["Date" := JStr("2024-03-01T11:30:00+03:00"), "PreviousDate" := JStr("2024-02-29T11:30:00+03:00"),
             "Valute" := JObj(map["USD" := Entry("USD", nominal), "EUR" := Entry("EUR", nominal),
                                  "GBP" := Entry("GBP", nominal), "CNY" := Entry("CNY", nominal)])])
  }

  /** The sample document has the accepted shape whatever its nominal. */
  lemma SampleWellFormed(nominal: Json)
    ensures WellFormedPayload(SamplePayload(nominal))
  {
    var valute := SamplePayload(nominal).fields["Valute"].fields;
    forall i | 0 <= i < |RequiredCurrencies|
      ensures RequiredCurrencies[i] in valute && HasAllFields(valute[RequiredCurrencies[i]])
    {
      var c := RequiredCurrencies[i];
      assert c in {"USD", "EUR", "GBP", "CNY"};
      assert valute[c] == Entry(c, nominal);
      EntryHasAllFields(c, nominal);
    }
  }

  /** Presence is all that is checked: any nominal, 0 or negative or not a number, passes. */
  lemma ValidateIgnoresNominal(nominal: Json)
    ensures ValidatePayload(SamplePayload(nominal)) == Ok(true)
  {
    SampleWellFormed(nominal);
    ValidatePayloadIff(SamplePayload(nominal));
  }

  // ---------------------------------------------------------------------
  // _get_cache_date_from_data

  /** `_get_cache_date_from_data(data)`: the date written before the first `T`
      of `data['Date']` when `strptime` accepts it, otherwise `today`. A `Date`
      that is not a string has no `split`, and the AttributeError escapes. */
  function CacheDateFromData(data: Json, today: Date): (r: Py<Date>)
    requires data.JObj? && Valid(today)
    ensures r.Ok? ==> Valid(r.value)
    ensures r.Raise? <==> "Date" in data.fields && !data.fields["Date"].JStr?
    ensures "Date" !in data.fields ==> r == Ok(today)
  {
    if "Date" in data.fields then
      match data.fields["Date"]
      case JStr(s) =>
        (match Strptime(Split(s, 'T')[0])
         case Some(d) => Ok(d)
         case None => Ok(today))
      case _ => Raise(AttributeError)
    else Ok(today)
  }

  /** A string `Date` is filed under the date its part before any `T`
      parses to, or under today when it does not parse. */
  lemma CacheDateFromString(data: Json, today: Date)
    requires data.JObj? && Valid(today) && "Date" in data.fields && data.fields["Date"].JStr?
    ensures CacheDateFromData(data, today)
      == Ok(match Strptime(Split(data.fields["Date"].s, 'T')[0]) case Some(d) => d case None => today)
  {
  }

  lemma IsoFormatHasNoT(d: Date)
    requires Valid(d)
    ensures 'T' !in IsoFormat(d)
  {
  }

  /** A provider timestamp `YYYY-MM-DDThh:mm:ss...` is filed under its own date,
      whatever `today` is: nothing clamps a date later than today. */
  lemma CacheDateOfTimestamp(d: Date, time: string, today: Date, fields: map<string, Json>)
    requires Valid(d) && Valid(today)
    ensures CacheDateFromData(JObj(fields["Date" := JStr(IsoFormat(d) + "T" + time)]), today) == Ok(d)
  {
    IsoFormatHasNoT(d);
    SplitFirstPiece(IsoFormat(d), 'T', time);
    StrptimeIsoFormat(d);
  }

  // ---------------------------------------------------------------------
  // The cache directory

  /** What `json.load` makes of a cache file: a document, or an exception
      (the file is truncated, not JSON, unreadable). */
  datatype Content = Parsed(doc: Json) | Unreadable

  /** A file in the cache directory: its content and `os.path.getctime`, in
      microseconds since the epoch. */
  datatype CacheFile = CacheFile(content: Content, ctime: int)

  /** The directory listing: bare file name to file. */
  type Directory = map<string, CacheFile>

  /** `_get_cache_filename(d)` inside the cache directory: the rates of day
      `d` are stored as `rates_YYYYMMDD.json`. The directory is the map the
      name is looked up in, so the `cache/` prefix is left implicit. */
  function CacheFileName(d: Date): string
    requires Valid(d)
  {
    "rates_" + CompactFormat(d) + ".json"
  }

  /** The file-name pattern `clear_old_cache` deletes from. */
  predicate IsRatesFile(name: string) {
    StartsWith(name, "rates_") && EndsWith(name, ".json")
  }

  /** Each day has its own file, and every such file is one the pruning
      pattern matches. */
  lemma CacheFileNameInjective(a: Date, b: Date)
    requires Valid(a) && Valid(b)
    ensures CacheFileName(a) == CacheFileName(b) <==> a == b
    ensures IsRatesFile(CacheFileName(a))
  {
    var na, nb := CacheFileName(a), CacheFileName(b);
    if na == nb {
      assert na[6..14] == CompactFormat(a);
      assert nb[6..14] == CompactFormat(b);
      CompactFormatInjective(a, b);
    }
  }

  /** `_load_from_cache(d)`: the parsed document of day `d`'s file, or `None`
      when the file is missing or `json.load` fails. */
  function Load(dir: Directory, d: Date): (r: Option<Json>)
    requires Valid(d)
    ensures r.Some? <==> CacheFileName(d) in dir && dir[CacheFileName(d)].content.Parsed?
  {
    var name := CacheFileName(d);
    if name in dir then
      match dir[name].content
      case Parsed(doc) => Some(doc)
      case Unreadable => None
    else None
  }

  /** The test every caller applies to `_load_from_cache`: `if cached_data:`.
      An empty document counts as a miss, as does a corrupt file. */
  function Hit(dir: Directory, d: Date): Option<Json>
    requires Valid(d)
  {
    var loaded := Load(dir, d);
    if loaded.Some? && Truthy(loaded.value) then loaded else None
  }

  /** `_save_to_cache(data, d)` at time `now`: day `d`'s file now holds `data`
      (and, being rewritten, has ctime `now`); no other file changes. */
  function Save(dir: Directory, d: Date, data: Json, now: int): (r: Directory)
    requires Valid(d)
    ensures r.Keys == dir.Keys + {CacheFileName(d)}
  {
    dir[CacheFileName(d) := CacheFile(Parsed(data), now)]
  }

  /** Reading back after a save: the saved day yields the saved document,
      every other day yields what it did before. */
  lemma LoadAfterSave(dir: Directory, d: Date, data: Json, now: int, e: Date)
    requires Valid(d) && Valid(e)
    ensures Load(Save(dir, d, data, now), e) == if e == d then Some(data) else Load(dir, e)
  {
    CacheFileNameInjective(d, e);
  }

  // ---------------------------------------------------------------------
  // _get_last_available_cached_data

  /** `today - timedelta(days=days_back)` for `days_back` in `range(8)`, newest
      first; `None` where Python raises OverflowError (before 0001-01-01). */
  function Window(today: Date): (w: seq<Option<Date>>)
    requires Valid(today)
    ensures |w| == 8
    ensures forall k :: 0 <= k < 8 ==> (w[k].Some? <==> Ordinal(today) - k >= 1)
    ensures forall k :: 0 <= k < 8 && w[k].Some? ==> Valid(w[k].value) && Ordinal(w[k].value) == Ordinal(today) - k
  {
    seq(8, (k: int) requires 0 <= k => DaysBefore(today, k))
  }

  /** Position `k` of the window is the day `k` before today. */
  lemma WindowAt(today: Date, k: nat)
    requires Valid(today) && k < 8
    ensures Window(today)[k] == DaysBefore(today, k)
  {
  }

  /** Every day of a window that exists is a valid date. */
  predicate ValidDays(days: seq<Option<Date>>) {
    |days| == 8 && forall k :: 0 <= k < 8 && days[k].Some? ==> Valid(days[k].value)
  }

  /** The hit, if any, on a day of the window. */
  function DayHit(dir: Directory, day: Option<Date>): Option<Json>
    requires day.Some? ==> Valid(day.value)
  {
    match day
    case None => None
    case Some(d) => Hit(dir, d)
  }

  /** The loop from `days_back = k` to 7: the first day whose file loads to a
      non-empty document wins; an OverflowError ends the scan with nothing. */
  function ScanFrom(dir: Directory, days: seq<Option<Date>>, k: nat): (r: Option<Json>)
    requires ValidDays(days) && k <= 8
    ensures r.Some? ==> Truthy(r.value)
    decreases 8 - k
  {
    if k == 8 then None
    else match days[k]
      case None => None
      case Some(d) =>
        var cached := Load(dir, d);
        if cached.Some? && Truthy(cached.value) then cached
        else ScanFrom(dir, days, k + 1)
  }

  /** `_get_last_available_cached_data()` on the day `today`. */
  function FallbackScan(dir: Directory, today: Date): Option<Json>
    requires Valid(today)
  {
    ScanFrom(dir, Window(today), 0)
  }

  /** The first `days_back` from `k` on that has a hit or has no date, or 8. */
  function FirstHit(dir: Directory, days: seq<Option<Date>>, k: nat): (j: nat)
    requires ValidDays(days) && k <= 8
    ensures k <= j <= 8
    ensures j < 8 ==> days[j].None? || DayHit(dir, days[j]).Some?
    decreases 8 - k
  {
    if k == 8 || days[k].None? || DayHit(dir, days[k]).Some? then k else FirstHit(dir, days, k + 1)
  }

  /** Every day before the first hit exists and has no hit. */
  lemma {:induction false} FirstHitIsFirst(dir: Directory, days: seq<Option<Date>>, k: nat, i: nat)
    requires ValidDays(days) && k <= 8 && k <= i < FirstHit(dir, days, k)
    ensures days[i].Some? && DayHit(dir, days[i]).None?
    decreases i - k
  {
    if k < i {
      FirstHitIsFirst(dir, days, k + 1, i);
    }
  }

  /** The scan from `days_back = k` returns the hit at the first day from `k`
      to 7 that has one, and nothing when none has. */
  lemma {:induction false} ScanFromFirstHit(dir: Directory, days: seq<Option<Date>>, k: nat)
    requires ValidDays(days) && k <= 8
    ensures ScanFrom(dir, days, k) == (var j := FirstHit(dir, days, k); if j < 8 then DayHit(dir, days[j]) else None)
    decreases 8 - k
  {
    if k < 8 && days[k].Some? && DayHit(dir, days[k]).None? {
      ScanFromFirstHit(dir, days, k + 1);
    }
  }

  /** The window holds a valid date `e` at position `today - e`. */
  lemma WindowHolds(today: Date, e: Date)
    requires Valid(today) && Valid(e) && 0 <= Ordinal(today) - Ordinal(e) < 8
    ensures Window(today)[Ordinal(today) - Ordinal(e)] == Some(e)
  {
    var k := Ordinal(today) - Ordinal(e);
    OrdinalAtLeastOne(e);
    OrdinalInjective(DaysBefore(today, k).value, e);
  }

  /** The fallback never serves a day later than today or earlier than seven
      days before it, and serves the newest readable non-empty file in that window. */
  lemma FallbackWithinWindow(dir: Directory, today: Date)
    requires Valid(today)
    ensures FallbackScan(dir, today).Some? ==>
      exists d :: Valid(d) && Ordinal(today) - 7 <= Ordinal(d) <= Ordinal(today)
        && Hit(dir, d) == FallbackScan(dir, today)
        && forall e :: Valid(e) && Ordinal(d) < Ordinal(e) <= Ordinal(today) ==> Hit(dir, e).None?
    ensures FallbackScan(dir, today).None? ==>
      forall d :: Valid(d) && Ordinal(today) - 7 <= Ordinal(d) <= Ordinal(today) ==> Hit(dir, d).None?
  {
    var w := Window(today);
    var j := FirstHit(dir, w, 0);
    ScanFromFirstHit(dir, w, 0);
    if j < 8 && w[j].Some? {
      var d := w[j].value;
      forall e | Valid(e) && Ordinal(d) < Ordinal(e) <= Ordinal(today)
        ensures Hit(dir, e).None?
      {
        WindowHolds(today, e);
        FirstHitIsFirst(dir, w, 0, Ordinal(today) - Ordinal(e));
      }
      assert Hit(dir, d) == FallbackScan(dir, today);
    } else {
      forall d | Valid(d) && Ordinal(today) - 7 <= Ordinal(d) <= Ordinal(today)
        ensures Hit(dir, d).None?
      {
        var k := Ordinal(today) - Ordinal(d);
        WindowHolds(today, d);
        FirstHitIsFirst(dir, w, 0, k);
      }
    }
  }

  // ---------------------------------------------------------------------
  // clear_old_cache

  const MicrosPerDay := 86_400_000_000
  /** The default `days_to_keep` of `clear_old_cache`. */
  const DefaultDaysToKeep := 30

  /** `(datetime.now() - file_time).days`: whole days, rounded down. */
  function AgeDays(now: int, ctime: int): int {
    (now - ctime) / MicrosPerDay
  }

  /** The files `clear_old_cache(days_to_keep)` removes. */
  predicate Expired(name: string, f: CacheFile, now: int, daysToKeep: int) {
    IsRatesFile(name) && AgeDays(now, f.ctime) > daysToKeep
  }

  function ExpiredNames(dir: Directory, now: int, daysToKeep: int): set<string> {
    set name | name in dir && Expired(name, dir[name], now, daysToKeep)
  }

  /** The directory after pruning: every file that is not expired, unchanged. */
  function Pruned(dir: Directory, now: int, daysToKeep: int): (r: Directory)
    ensures r.Keys == dir.Keys - ExpiredNames(dir, now, daysToKeep)
    ensures forall name :: name in r ==> r[name] == dir[name]
  {
    map name | name in dir && !Expired(name, dir[name], now, daysToKeep) :: dir[name]
  }

  /** Pruning is the removal of the expired names from the directory. */
  lemma PrunedIsRemoval(dir: Directory, now: int, daysToKeep: int)
    ensures Pruned(dir, now, daysToKeep) == dir - ExpiredNames(dir, now, daysToKeep)
  {
  }

  /** Pruning removes exactly the expired rates files: every other file,
      including every file not named `rates_*.json`, is still there, and the
      number removed is the number of expired files. */
  lemma PrunedCount(dir: Directory, now: int, daysToKeep: int)
    ensures |Pruned(dir, now, daysToKeep)| + |ExpiredNames(dir, now, daysToKeep)| == |dir|
    ensures forall name :: name in dir && !IsRatesFile(name) ==> name in Pruned(dir, now, daysToKeep)
  {
    var r := Pruned(dir, now, daysToKeep);
    var ex := ExpiredNames(dir, now, daysToKeep);
    assert r.Keys + ex == dir.Keys && r.Keys !! ex;
    assert |r.Keys + ex| == |r.Keys| + |ex|;
  }

  /** A file saved at `now` survives pruning at `now` for any non-negative
      `days_to_keep`; once it is more than `days_to_keep` whole days old it goes. */
  lemma FreshFileSurvives(dir: Directory, d: Date, data: Json, now: int, later: int, daysToKeep: int)
    requires Valid(d) && daysToKeep >= 0
    ensures CacheFileName(d) in Pruned(Save(dir, d, data, now), now, daysToKeep)
    ensures later >= now + (daysToKeep + 1) * MicrosPerDay ==>
      CacheFileName(d) !in Pruned(Save(dir, d, data, now), later, daysToKeep)
  {
    CacheFileNameInjective(d, d);
    if later >= now + (daysToKeep + 1) * MicrosPerDay {
      assert AgeDays(later, now) >= daysToKeep + 1;
    }
  }
}
