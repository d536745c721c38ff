/** `DataHandler`: the current rate entry of each tracked currency and a
    bounded history of points per currency, updated in place from a provider
    document. The timestamp `datetime.now().isoformat()` is a parameter, and
    the save to disk after a successful update does nothing here. */
module DataHandling {
  import opened PyValues

  /** `self.currencies`, never reassigned. */
  const Tracked := ["USD", "EUR", "GBP", "CNY"]

  /** The length a history list is cut back to after each append. */
  const HistoryLimit := 14

  /** The default `days` of `get_historical_data`. */
  const DefaultDays := 14

  /** One history point: `{'date': ..., 'value': ..., 'change': ...}`. */
  datatype Point = Point(date: string, value: Json, change: Json)

  /** The two dictionaries the handler updates. */
  datatype Tables = Tables(rates: map<string, Json>, history: map<string, seq<Point>>)

  /** The tables after a pass over some currencies, and whether an exception
      stopped it. */
  datatype Update = Update(tables: Tables, failed: bool)

  /** What `update_data` leaves behind: the tables and the value it returns
      (or the exception that escapes it). */
  datatype Outcome = Outcome(tables: Tables, result: Py<bool>)

  /** The point appended for a currency entry: its `Value`, and `Value -
      Previous`; a KeyError or TypeError when the entry lacks them or they do
      not subtract. */
  function MakePoint(entry: Json, stamp: string): (r: Py<Point>)
    ensures r.Ok? <==> entry.JObj? && "Value" in entry.fields && "Previous" in entry.fields
                        && IsNumber(entry.fields["Value"]) && IsNumber(entry.fields["Previous"])
    ensures r.Ok? ==> r.value.date == stamp && r.value.value == entry.fields["Value"]
                      && r.value.change == Sub(entry.fields["Value"], entry.fields["Previous"]).value
  {
    match GetItem(entry, "Value")
    case Raise(e) => Raise(e)
    case Ok(v) =>
      match GetItem(entry, "Previous")
      case Raise(e) => Raise(e)
      case Ok(p) =>
        match Sub(v, p)
        case Raise(e) => Raise(e)
        case Ok(change) => Ok(Point(stamp, v, change))
  }

  /** `if len(h) > 14: h.pop(0)`. */
  function Trim(h: seq<Point>): seq<Point> {
    if |h| > HistoryLimit then h[1..] else h
  }

  /** The history of `c`, or the empty list `update_data` starts it with. */
  function Prior(history: map<string, seq<Point>>, c: string): seq<Point> {
    if c in history then history[c] else []
  }

  /** One iteration of the loop over `self.currencies`. A present currency
      first gets its rate entry and (if new) an empty history, and only then
      is its point built, so an exception there keeps those two changes. */
  function RecordCurrency(t: Tables, valute: Json, c: string, stamp: string): Update {
    match Contains(valute, c)
    case Raise(_) => Update(t, true)
    case Ok(false) => Update(t, false)
    case Ok(true) =>
      match GetItem(valute, c)
      case Raise(_) => Update(t, true)
      case Ok(entry) =>
        var rates := t.rates[c := entry];
        var history := t.history[c := Prior(t.history, c)];
        match MakePoint(entry, stamp)
        case Raise(_) => Update(Tables(rates, history), true)
        case Ok(p) => Update(Tables(rates, history[c := Trim(history[c] + [p])]), false)
  }

  /** The loop over `cs`, stopped by the first exception. */
  function RecordAll(t: Tables, valute: Json, cs: seq<string>, stamp: string): Update
    decreases |cs|
  {
    if cs == [] then Update(t, false)
    else
      var u := RecordCurrency(t, valute, cs[0], stamp);
      if u.failed then u else RecordAll(u.tables, valute, cs[1..], stamp)
  }

  /** `update_data(new_data)` on tables `t`. A falsy document or one without
      `Valute` is refused untouched; `in` on a number raises outside the
      `try`; every exception inside it makes the result False, with the
      changes made so far kept. */
  function UpdateSpec(t: Tables, newData: Json, stamp: string): Outcome {
    if !Truthy(newData) then Outcome(t, Ok(false))
    else match Contains(newData, "Valute")
      case Raise(e) => Outcome(t, Raise(e))
      case Ok(false) => Outcome(t, Ok(false))
      case Ok(true) =>
        match GetItem(newData, "Valute")
        case Raise(_) => Outcome(t, Ok(false))
        case Ok(valute) =>
          var u := RecordAll(t, valute, Tracked, stamp);
          Outcome(u.tables, Ok(!u.failed))
  }

  /** Python's `h[start:]`: a negative start counts from the end, and both
      ends are clipped to the list. */
  function SliceFrom(h: seq<Point>, start: int): seq<Point> {
    var n := |h|;
    var s := if start < 0 then (if start + n < 0 then 0 else start + n) else (if start > n then n else start);
    h[s..]
  }

  // ---------------------------------------------------------------------
  // Properties of update_data

  /** A falsy document, or one without `Valute`, is refused with nothing
      changed; a non-zero number or `True` makes the `in` test raise. */
  lemma RefusedWithoutValute(t: Tables, newData: Json, stamp: string)
    ensures !Truthy(newData) ==> UpdateSpec(t, newData, stamp) == Outcome(t, Ok(false))
    ensures newData.JObj? && "Valute" !in newData.fields ==> UpdateSpec(t, newData, stamp) == Outcome(t, Ok(false))
    ensures Truthy(newData) && (newData.JBool? || newData.JInt? || newData.JFloat?) ==>
      UpdateSpec(t, newData, stamp) == Outcome(t, Raise(TypeError))
  {
  }

  /** The entries of currency `c` in two tables agree. */
  predicate SameAt(a: Tables, b: Tables, c: string) {
    && (c in a.rates <==> c in b.rates) && (c in a.rates ==> a.rates[c] == b.rates[c])
    && (c in a.history <==> c in b.history) && (c in a.history ==> a.history[c] == b.history[c])
  }

  /** A currency not in the loop, or absent from a dict `Valute`, keeps its
      entries, whether or not the loop fails. */
  lemma {:induction false} RecordAllFrame(t: Tables, valute: Json, cs: seq<string>, stamp: string, c: string)
    requires c !in cs || (valute.JObj? && c !in valute.fields)
    ensures SameAt(RecordAll(t, valute, cs, stamp).tables, t, c)
    decreases |cs|
  {
    if cs != [] {
      var u := RecordCurrency(t, valute, cs[0], stamp);
      assert SameAt(u.tables, t, c);
      if !u.failed {
        RecordAllFrame(u.tables, valute, cs[1..], stamp, c);
      }
    }
  }

  /** Untracked currencies, and tracked ones absent from the document, keep
      their rate entry and their history. */
  lemma UntrackedUnchanged(t: Tables, newData: Json, stamp: string, c: string)
    requires c !in Tracked || (newData.JObj? && "Valute" in newData.fields
                              && newData.fields["Valute"].JObj? && c !in newData.fields["Valute"].fields)
    ensures SameAt(UpdateSpec(t, newData, stamp).tables, t, c)
  {
    if Truthy(newData) && Contains(newData, "Valute") == Ok(true) && GetItem(newData, "Valute").Ok? {
      RecordAllFrame(t, GetItem(newData, "Valute").value, Tracked, stamp, c);
    }
  }

  /** No element of `cs` appears twice. */
  predicate Distinct(cs: seq<string>) {
    forall i, j :: 0 <= i < j < |cs| ==> cs[i] != cs[j]
  }

  /** Every present currency of `cs` has an entry whose point can be built. */
  predicate PointsBuild(valute: map<string, Json>, cs: seq<string>, stamp: string) {
    forall i :: 0 <= i < |cs| && cs[i] in valute ==> MakePoint(valute[cs[i]], stamp).Ok?
  }

  /** When every present currency's point builds, the loop succeeds: each
      present currency of `cs` gets its entry and exactly one new point at the
      end of its history, cut back to 14. */
  lemma {:induction false} RecordAllSuccess(t: Tables, valute: map<string, Json>, cs: seq<string>, stamp: string)
    requires Distinct(cs) && PointsBuild(valute, cs, stamp)
    ensures var u := RecordAll(t, JObj(valute), cs, stamp);
      && !u.failed
      && forall c :: c in cs && c in valute ==>
           && c in u.tables.rates && u.tables.rates[c] == valute[c]
           && c in u.tables.history
           && u.tables.history[c] == Trim(Prior(t.history, c) + [MakePoint(valute[c], stamp).value])
    decreases |cs|
  {
    if cs != [] {
      var c0 := cs[0];
      var u0 := RecordCurrency(t, JObj(valute), c0, stamp);
      var rest := cs[1..];
      assert Distinct(rest) by {
        forall i, j | 0 <= i < j < |rest| ensures rest[i] != rest[j] {
          assert rest[i] == cs[i + 1] && rest[j] == cs[j + 1];
        }
      }
      assert PointsBuild(valute, rest, stamp) by {
        forall i | 0 <= i < |rest| && rest[i] in valute ensures MakePoint(valute[rest[i]], stamp).Ok? {
          assert rest[i] == cs[i + 1];
        }
      }
      RecordAllSuccess(u0.tables, valute, rest, stamp);
      var u := RecordAll(u0.tables, JObj(valute), rest, stamp);
      forall c | c in cs && c in valute
        ensures && c in u.tables.rates && u.tables.rates[c] == valute[c]
                && c in u.tables.history
                && u.tables.history[c] == Trim(Prior(t.history, c) + [MakePoint(valute[c], stamp).value])
      {
        if c == c0 {
          assert c0 !in rest by {
            forall i | 0 <= i < |rest| ensures rest[i] != c0 {
              assert rest[i] == cs[i + 1];
            }
          }
          RecordAllFrame(u0.tables, JObj(valute), rest, stamp, c);
        } else {
          assert c in rest;
          assert Prior(u0.tables.history, c) == Prior(t.history, c);
        }
      }
    }
  }

  lemma TrackedDistinct()
    ensures Distinct(Tracked)
  {
  }

  /** A document whose tracked entries all carry numeric `Value` and
      `Previous` is recorded in full and `update_data` returns True. */
  lemma UpdateSucceeds(t: Tables, valute: map<string, Json>, fields: map<string, Json>, stamp: string)
    requires PointsBuild(valute, Tracked, stamp)
    ensures var o := UpdateSpec(t, JObj(fields["Valute" := JObj(valute)]), stamp);
      && o.result == Ok(true)
      && forall c :: c in Tracked && c in valute ==>
           && c in o.tables.rates && o.tables.rates[c] == valute[c]
           && c in o.tables.history
           && o.tables.history[c] == Trim(Prior(t.history, c) + [MakePoint(valute[c], stamp).value])
  {
    var doc := JObj(fields["Valute" := JObj(valute)]);
    assert "Valute" in doc.fields;
    assert Truthy(doc);
    TrackedDistinct();
    RecordAllSuccess(t, valute, Tracked, stamp);
  }

  /** Appending to a history of at most 14 points keeps at most 14: the new
      point goes last and, when the list reached 15, only the oldest point is
      dropped; the others keep their order. */
  lemma AppendKeepsNewest(h: seq<Point>, p: Point)
    requires |h| <= HistoryLimit
    ensures var r := Trim(h + [p]);
      && |r| <= HistoryLimit
      && r == (if |h| == HistoryLimit then h[1..] else h) + [p]
  {
    if |h| == HistoryLimit {
      assert (h + [p])[1..] == h[1..] + [p];
    }
  }

  /** Histories of at most 14 points each. */
  predicate Capped(history: map<string, seq<Point>>) {
    forall c :: c in history ==> |history[c]| <= HistoryLimit
  }

  /** The loop keeps every history within 14 points and adds history and rate
      keys only for currencies of `cs`. */
  lemma {:induction false} RecordAllKeepsCap(t: Tables, valute: Json, cs: seq<string>, stamp: string)
    requires Capped(t.history)
    ensures var u := RecordAll(t, valute, cs, stamp);
      && Capped(u.tables.history)
      && (forall c :: c in u.tables.history ==> c in t.history || c in cs)
      && (forall c :: c in u.tables.rates ==> c in t.rates || c in cs)
    decreases |cs|
  {
    if cs != [] {
      var u0 := RecordCurrency(t, valute, cs[0], stamp);
      if Contains(valute, cs[0]) == Ok(true) && GetItem(valute, cs[0]).Ok?
         && MakePoint(GetItem(valute, cs[0]).value, stamp).Ok? {
        AppendKeepsNewest(Prior(t.history, cs[0]), MakePoint(GetItem(valute, cs[0]).value, stamp).value);
      }
      assert Capped(u0.tables.history);
      if !u0.failed {
        RecordAllKeepsCap(u0.tables, valute, cs[1..], stamp);
        assert forall c :: c in cs[1..] ==> c in cs;
      }
    }
  }

  /** The handler's invariant: only tracked currencies have entries, and each
      history holds at most 14 points. */
  predicate Bounded(t: Tables) {
    && (forall c :: c in t.rates ==> c in Tracked)
    && (forall c :: c in t.history ==> c in Tracked)
    && Capped(t.history)
  }

  /** `update_data` keeps the invariant, whatever the document. */
  lemma UpdateKeepsBounded(t: Tables, newData: Json, stamp: string)
    requires Bounded(t)
    ensures Bounded(UpdateSpec(t, newData, stamp).tables)
  {
    if Truthy(newData) && Contains(newData, "Valute") == Ok(true) && GetItem(newData, "Valute").Ok? {
      RecordAllKeepsCap(t, GetItem(newData, "Valute").value, Tracked, stamp);
    }
  }

  /** The loop over `cs + [c] + rest`, when the part over `cs` raises nothing,
      is that part, then the pass over `c`, then (unless that pass raises)
      the loop over `rest`. */
  lemma {:induction false} RecordAllSplit(t: Tables, valute: Json, cs: seq<string>, c: string, rest: seq<string>, stamp: string)
    requires !RecordAll(t, valute, cs, stamp).failed
    ensures RecordAll(t, valute, cs + [c] + rest, stamp) ==
      var u := RecordCurrency(RecordAll(t, valute, cs, stamp).tables, valute, c, stamp);
      if u.failed then u else RecordAll(u.tables, valute, rest, stamp)
    decreases |cs|
  {
    if cs == [] {
      assert cs + [c] + rest == [c] + rest && ([c] + rest)[1..] == rest;
    } else {
      var u0 := RecordCurrency(t, valute, cs[0], stamp);
      RecordAllSplit(u0.tables, valute, cs[1..], c, rest, stamp);
      assert (cs + [c] + rest)[0] == cs[0] && (cs + [c] + rest)[1..] == cs[1..] + [c] + rest;
    }
  }

  /** The loop over the tracked currencies of a dict `Valute` whose first
      failing currency is `Tracked[k]`: it fails; the currencies before it are
      recorded in full; it keeps its new rate entry and its history without a
      new point; the currencies after it keep their entries. */
  lemma FailAt(t: Tables, valute: map<string, Json>, k: nat, stamp: string)
    requires k < |Tracked| && PointsBuild(valute, Tracked[..k], stamp)
    requires Tracked[k] in valute && MakePoint(valute[Tracked[k]], stamp).Raise?
    ensures var u := RecordAll(t, JObj(valute), Tracked, stamp);
      && u.failed
      && (forall c :: c in Tracked[..k] && c in valute ==>
           && c in u.tables.rates && u.tables.rates[c] == valute[c]
           && c in u.tables.history
           && u.tables.history[c] == Trim(Prior(t.history, c) + [MakePoint(valute[c], stamp).value]))
      && Tracked[k] in u.tables.rates && u.tables.rates[Tracked[k]] == valute[Tracked[k]]
      && Tracked[k] in u.tables.history && u.tables.history[Tracked[k]] == Prior(t.history, Tracked[k])
      && (forall c :: c in Tracked[k + 1..] ==> SameAt(u.tables, t, c))
  {
    var v := JObj(valute);
    var before, c, after := Tracked[..k], Tracked[k], Tracked[k + 1..];
    TrackedDistinct();
    assert Distinct(before);
    RecordAllSuccess(t, valute, before, stamp);
    var u := RecordAll(t, v, before, stamp);
    assert Tracked == before + [c] + after;
    RecordAllSplit(t, v, before, c, after, stamp);
    assert c !in before;
    RecordAllFrame(t, v, before, stamp, c);
    forall x | x in after
      ensures SameAt(u.tables, t, x)
    {
      assert x !in before;
      RecordAllFrame(t, v, before, stamp, x);
    }
  }

  /** An exception part-way through a dict `Valute`, at the first tracked
      currency `Tracked[k]` whose point cannot be built: `update_data` returns
      False and keeps what the loop did before the exception, as `FailAt` states. */
  lemma PartialFailure(t: Tables, valute: map<string, Json>, fields: map<string, Json>, k: nat, stamp: string)
    requires k < |Tracked| && PointsBuild(valute, Tracked[..k], stamp)
    requires Tracked[k] in valute && MakePoint(valute[Tracked[k]], stamp).Raise?
    ensures var o := UpdateSpec(t, JObj(fields["Valute" := JObj(valute)]), stamp);
      && o.result == Ok(false)
      && o.tables == RecordAll(t, JObj(valute), Tracked, stamp).tables
  {
    var doc := JObj(fields["Valute" := JObj(valute)]);
    assert "Valute" in doc.fields && Truthy(doc) && GetItem(doc, "Valute") == Ok(JObj(valute));
    FailAt(t, valute, k, stamp);
  }

  /** An entry with the given `Value` and `Previous`. */
  function Quote(value: Json, previous: Json): Json {
    JObj(map["Value" := value, "Previous" := previous])
  }

  /** An exception partway keeps what was done before it: with USD complete
      and EUR lacking `Previous`, the result is False, yet USD is recorded,
      EUR has its new rate entry and an empty history, and GBP and CNY are
      never reached. */
  lemma PartialFailureKeepsChanges(stamp: string)
    ensures var usd := Quote(JInt(90), JInt(89));
      var eur := JObj(map["Value" := JInt(98)]);
      var gbp := Quote(JInt(115), JInt(114));
      var doc := JObj(map["Valute" := JObj(map["USD" := usd, "EUR" := eur, "GBP" := gbp])]);
      UpdateSpec(Tables(map[], map[]), doc, stamp) ==
        Outcome(Tables(map["USD" := usd, "EUR" := eur], map["USD" := [Point(stamp, JInt(90), JInt(1))], "EUR" := []]), Ok(false))
  {
    var usd := Quote(JInt(90), JInt(89));
    var eur := JObj(map["Value" := JInt(98)]);
    var gbp := Quote(JInt(115), JInt(114));
    var valute := JObj(map["USD" := usd, "EUR" := eur, "GBP" := gbp]);
    var t0 := Tables(map[], map[]);
    var u1 := RecordCurrency(t0, valute, "USD", stamp);
    assert GetItem(valute, "USD") == Ok(usd);
    assert Sub(JInt(90), JInt(89)) == Ok(JInt(1));
    assert MakePoint(usd, stamp) == Ok(Point(stamp, JInt(90), JInt(1)));
    assert Trim([] + [Point(stamp, JInt(90), JInt(1))]) == [Point(stamp, JInt(90), JInt(1))];
    assert u1 == Update(Tables(map["USD" := usd], map["USD" := [Point(stamp, JInt(90), JInt(1))]]), false);
    var u2 := RecordCurrency(u1.tables, valute, "EUR", stamp);
    assert Contains(valute, "EUR") == Ok(true) && GetItem(valute, "EUR") == Ok(eur);
    assert MakePoint(eur, stamp).Raise?;
    assert u2 == Update(Tables(map["USD" := usd, "EUR" := eur], map["USD" := [Point(stamp, JInt(90), JInt(1))], "EUR" := []]), true);
    assert Tracked[1..] == ["EUR", "GBP", "CNY"];
    assert RecordAll(u1.tables, valute, Tracked[1..], stamp) == u2;
    assert RecordAll(t0, valute, Tracked, stamp) == u2;
    var doc := JObj(map["Valute" := valute]);
    assert "Valute" in doc.fields && Truthy(doc);
    assert GetItem(doc, "Valute") == Ok(valute);
  }

  /** `h[-days:]`: the last `days` points (all of them when fewer) for a
      positive `days`; the whole list for 0, since `-0` is `0`; and for a
      negative `days`, the list without its first `-days` points. */
  lemma SliceLastDays(h: seq<Point>, days: int)
    ensures days >= 1 ==> SliceFrom(h, -days) == h[|h| - (if days < |h| then days else |h|)..]
    ensures days >= 1 ==> |SliceFrom(h, -days)| == (if days < |h| then days else |h|)
    ensures days == 0 ==> SliceFrom(h, -days) == h
    ensures days < 0 ==> SliceFrom(h, -days) == if -days >= |h| then [] else h[-days..]
  {
  }

  // ---------------------------------------------------------------------
  // The handler object

  class DataHandler {
    /** `self.current_rates`: currency code to its provider entry. */
    var currentRates: map<string, Json>
    /** `self.historical_data`: currency code to its points, oldest first. */
    var history: map<string, seq<Point>>

    function State(): Tables
      reads this
    {
      Tables(currentRates, history)
    }

    /** `__init__`: both dictionaries empty. */
    constructor ()
      ensures currentRates == map[] && history == map[]
      ensures Bounded(State())
    {
      currentRates := map[];
      history := map[];
    }

    /** `update_data(new_data)` with `stamp` for `datetime.now().isoformat()`. */
    method UpdateData(newData: Json, stamp: string) returns (r: Py<bool>)
      modifies this
      ensures r == UpdateSpec(old(State()), newData, stamp).result
      ensures State() == UpdateSpec(old(State()), newData, stamp).tables
    {
      if !Truthy(newData) {
        return Ok(false);
      }
      var has := Contains(newData, "Valute");
      if has.Raise? {
        return Raise(has.exc);
      }
      if !has.value {
        return Ok(false);
      }
      var i := 0;
      while i < |Tracked|
        invariant 0 <= i <= |Tracked|
        invariant GetItem(newData, "Valute").Raise? ==> i == 0 && State() == old(State())
        invariant GetItem(newData, "Valute").Ok? ==>
          RecordAll(old(State()), GetItem(newData, "Valute").value, Tracked, stamp)
            == RecordAll(State(), GetItem(newData, "Valute").value, Tracked[i..], stamp)
      {
        var valute := GetItem(newData, "Valute");
        if valute.Raise? {
          return Ok(false);
        }
        assert Tracked[i..][1..] == Tracked[i + 1..];
        var failed := RecordOne(valute.value, Tracked[i], stamp);
        if failed {
          return Ok(false);
        }
        i := i + 1;
      }
      return Ok(true);
    }

    /** One pass of the `for currency` loop of `update_data`, given the
        `Valute` value; `failed` when an exception ends the `try` block, with
        the changes made before it kept. */
    method RecordOne(valute: Json, c: string, stamp: string) returns (failed: bool)
      modifies this
      ensures Update(State(), failed) == RecordCurrency(old(State()), valute, c, stamp)
    {
      ghost var before := State();
      var present := Contains(valute, c);
      if present.Raise? {
        return true;
      }
      if present.value {
        var entry := GetItem(valute, c);
        if entry.Raise? {
          return true;
        }
        currentRates := currentRates[c := entry.value];
        if c !in history {
          history := history[c := []];
        }
        assert history == before.history[c := Prior(before.history, c)];
        var point := MakePoint(entry.value, stamp);
        if point.Raise? {
          return true;
        }
        history := history[c := history[c] + [point.value]];
        if |history[c]| > HistoryLimit {
          history := history[c := history[c][1..]];
        }
        assert history == before.history[c := Prior(before.history, c)][c := Trim(Prior(before.history, c) + [point.value])];
      }
      return false;
    }

    /** `get_current_rates()`. */
    method GetCurrentRates() returns (r: map<string, Json>)
      ensures r == currentRates
    {
      return currentRates;
    }

    /** `get_historical_data(currency, days)`: `h[-days:]` of the currency's
        history, or an empty list for a currency without one. */
    method GetHistoricalData(c: string, days: int := DefaultDays) returns (r: seq<Point>)
      ensures c in history ==> r == SliceFrom(history[c], -days)
      ensures c !in history ==> r == []
    {
      if c in history {
        return SliceFrom(history[c], -days);
      }
      return [];
    }
  }
}
