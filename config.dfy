/** The configuration helpers: the nested lookup `get_config_value`, the
    right-biased recursive `deep_merge`, and `validate_config`, which lists
    what is missing or mistyped in the order it checks it. Each keeps its
    state in locals only, so each is a method proved against a function. */
module Config {
  import opened Text
  import opened PyValues

  // ---------------------------------------------------------------------
  // get_config_value

  /** The `keys` argument: a dotted string or a list of keys. */
  datatype KeyPath = Dotted(s: string) | Parts(keys: seq<string>)

  /** `not keys`. */
  predicate EmptyPath(path: KeyPath) {
    match path
    case Dotted(s) => s == ""
    case Parts(keys) => keys == []
  }

  /** The keys walked: `keys.split('.')` for a string. */
  function Keys(path: KeyPath): seq<string> {
    match path
    case Dotted(s) => Split(s, '.')
    case Parts(keys) => keys
  }

  /** The value reached from `j` through `keys`, taken front to back: each
      value on the way must be a dict holding the next key. */
  function At(j: Json, keys: seq<string>): Option<Json>
    decreases |keys|
  {
    if keys == [] then Some(j)
    else if j.JObj? && keys[0] in j.fields then At(j.fields[keys[0]], keys[1..])
    else None
  }

  /** `get_config_value(config, keys, default)`. */
  function ConfigValue(config: Json, path: KeyPath, default: Json): Json {
    if !Truthy(config) || EmptyPath(path) then default
    else match At(config, Keys(path))
      case Some(v) => v
      case None => default
  }

  /** `get_config_value` as written: a loop walking `current` down the keys. */
  method GetConfigValue(config: Json, path: KeyPath, default: Json) returns (r: Json)
    ensures r == ConfigValue(config, path, default)
  {
    if !Truthy(config) || EmptyPath(path) {
      return default;
    }
    var keys := Keys(path);
    var current := config;
    var i := 0;
    while i < |keys|
      invariant 0 <= i <= |keys|
      invariant At(config, keys) == At(current, keys[i..])
    {
      var key := keys[i];
      assert keys[i..][1..] == keys[i + 1..];
      if current.JObj? && key in current.fields {
        current := current.fields[key];
      } else {
        return default;
      }
      i := i + 1;
    }
    return current;
  }

  /** Extending a path by one key looks that key up in what the path reaches. */
  lemma {:induction false} AtSnoc(j: Json, keys: seq<string>, k: string)
    ensures At(j, keys + [k]) == match At(j, keys)
      case Some(p) => (if p.JObj? && k in p.fields then Some(p.fields[k]) else None)
      case None => None
    decreases |keys|
  {
    if keys != [] {
      assert (keys + [k])[0] == keys[0] && (keys + [k])[1..] == keys[1..] + [k];
      if j.JObj? && keys[0] in j.fields {
        AtSnoc(j.fields[keys[0]], keys[1..], k);
      }
    } else {
      assert [k][1..] == [];
    }
  }

  /** The value reached through the first `i` keys is a dict holding key `i`. */
  predicate StepOk(j: Json, keys: seq<string>, i: nat)
    requires i < |keys|
  {
    At(j, keys[..i]).Some? && At(j, keys[..i]).value.JObj? && keys[i] in At(j, keys[..i]).value.fields
  }

  /** A path reaches a value exactly when every value on the way is a dict
      holding the next key; an intermediate non-dict ends the walk. */
  lemma {:induction false} AtIff(j: Json, keys: seq<string>)
    ensures At(j, keys).Some? <==> forall i :: 0 <= i < |keys| ==> StepOk(j, keys, i)
    decreases |keys|
  {
    if keys != [] {
      var n := |keys| - 1;
      var init := keys[..n];
      AtIff(j, init);
      forall i | 0 <= i < n
        ensures StepOk(j, init, i) == StepOk(j, keys, i)
      {
        assert init[..i] == keys[..i] && init[i] == keys[i];
      }
      assert keys == init + [keys[n]] && keys[..n] == init;
      AtSnoc(j, init, keys[n]);
      assert At(j, keys).Some? <==> At(j, init).Some? && StepOk(j, keys, n);
    }
  }

  /** A dotted key and the list of its pieces look up the same value, and a
      list of dot-free keys looks up the same value as its dotted join,
      except that `""` (the join of `[""]`) is an empty key and gives the
      default. */
  lemma DottedMatchesParts(config: Json, s: string, keys: seq<string>, default: Json)
    requires keys != [] && forall i :: 0 <= i < |keys| ==> '.' !in keys[i]
    ensures s != "" ==> ConfigValue(config, Dotted(s), default) == ConfigValue(config, Parts(Split(s, '.')), default)
    ensures keys != [""] ==> ConfigValue(config, Parts(keys), default) == ConfigValue(config, Dotted(Join(keys, '.')), default)
  {
    SplitJoin(keys, '.');
  }

  /** A two-level lookup, as in the docstring (`['api', 'timeout']` and
      `'api.timeout'` find the timeout, `['api', 'retries']` falls back to the
      default): the value when the inner dict holds the key, else the
      default, and the default when the outer value is no dict. */
  lemma TwoLevelLookup(config: map<string, Json>, a: string, b: string, default: Json)
    requires a in config && '.' !in a && '.' !in b
    ensures var v := if config[a].JObj? && b in config[a].fields then config[a].fields[b] else default;
      && ConfigValue(JObj(config), Parts([a, b]), default) == v
      && ConfigValue(JObj(config), Dotted(a + "." + b), default) == v
  {
    assert Truthy(JObj(config));
    assert [a, b][1..] == [b] && [b][1..] == [];
    assert At(JObj(config), [a, b]) == At(config[a], [b]);
    if config[a].JObj? && b in config[a].fields {
      assert At(config[a], [b]) == At(config[a].fields[b], []);
    }
    SplitAtSeparator(a, '.', b);
    SplitWithoutSeparator(b, '.');
    assert a + "." + b == a + ['.'] + b;
    assert Split(a + "." + b, '.') == [a, b];
    assert a + "." + b != "";
  }

  /** The dotted key `""` is empty and gives the default, while the list
      `[""]` looks up the key `""`. */
  lemma EmptyKey(config: map<string, Json>, default: Json)
    requires "" in config
    ensures ConfigValue(JObj(config), Dotted(""), default) == default
    ensures ConfigValue(JObj(config), Parts([""]), default) == config[""]
  {
    assert Truthy(JObj(config));
    assert [""][1..] == [];
  }

  // ---------------------------------------------------------------------
  // deep_merge

  /** `deep_merge(d, u)`: every key of `d` and `u`; a key only in `d` keeps
      its value; a key in `u` takes the recursive merge when both values are
      dicts and `u`'s value otherwise. */
  function Merge(d: map<string, Json>, u: map<string, Json>): map<string, Json>
    decreases JObj(u), 1
  {
    map k | k in d.Keys + u.Keys :: if k in u then MergedAt(d, u, k) else d[k]
  }

  /** The value the loop stores for a key of `u`. */
  function MergedAt(d: map<string, Json>, u: map<string, Json>, k: string): Json
    requires k in u
    decreases JObj(u), 0
  {
    if k in d && d[k].JObj? && u[k].JObj? then JObj(Merge(d[k].fields, u[k].fields)) else u[k]
  }

  /** The keys of the merge are the keys of both; a key of `d` alone keeps
      its value; a key of `u` takes `u`'s value unless both values are dicts,
      which are merged. */
  lemma MergeShape(d: map<string, Json>, u: map<string, Json>)
    ensures Merge(d, u).Keys == d.Keys + u.Keys
    ensures forall k :: k in d && k !in u ==> Merge(d, u)[k] == d[k]
    ensures forall k :: k in u && !(k in d && d[k].JObj? && u[k].JObj?) ==> Merge(d, u)[k] == u[k]
    ensures forall k :: k in u && k in d && d[k].JObj? && u[k].JObj? ==>
      Merge(d, u)[k] == JObj(Merge(d[k].fields, u[k].fields))
  {
  }

  /** Merging in the same user config a second time changes nothing. */
  lemma {:induction false} MergeIdempotent(d: map<string, Json>, u: map<string, Json>)
    ensures Merge(Merge(d, u), u) == Merge(d, u)
    decreases JObj(u)
  {
    var m := Merge(d, u);
    forall k | k in u
      ensures MergedAt(m, u, k) == m[k]
    {
      assert m[k] == MergedAt(d, u, k);
      if k in d && d[k].JObj? && u[k].JObj? {
        MergeIdempotent(d[k].fields, u[k].fields);
      } else if u[k].JObj? {
        MergeSelf(u[k].fields);
      }
    }
  }

  /** A config merged into itself is unchanged. */
  lemma {:induction false} MergeSelf(d: map<string, Json>)
    ensures Merge(d, d) == d
    decreases JObj(d)
  {
    forall k | k in d
      ensures MergedAt(d, d, k) == d[k]
    {
      if d[k].JObj? {
        MergeSelf(d[k].fields);
      }
    }
  }

  /** Every non-dict value the user config holds at a path is what the merged
      config holds there: the user's settings win at every depth. */
  lemma {:induction false} UserValueWins(d: map<string, Json>, u: map<string, Json>, keys: seq<string>, v: Json)
    requires keys != [] && At(JObj(u), keys) == Some(v) && !v.JObj?
    ensures At(JObj(Merge(d, u)), keys) == Some(v)
    decreases |keys|
  {
    var k := keys[0];
    if k in d && d[k].JObj? && u[k].JObj? {
      if keys[1..] != [] {
        UserValueWins(d[k].fields, u[k].fields, keys[1..], v);
      }
    }
  }

  /** `deep_merge` as written: copy `d`, then for each key of `u` store the
      recursive merge or `u`'s value. The arguments are values here, so
      neither can be changed. */
  method DeepMerge(d: map<string, Json>, u: map<string, Json>) returns (r: map<string, Json>)
    ensures r == Merge(d, u)
    decreases JObj(u)
  {
    r := d;
    var pending := u.Keys;
    while pending != {}
      invariant pending <= u.Keys
      invariant r.Keys == d.Keys + (u.Keys - pending)
      invariant forall k :: k in r && k !in u.Keys - pending ==> r[k] == d[k]
      invariant forall k :: k in u.Keys - pending ==> r[k] == MergedAt(d, u, k)
      decreases pending
    {
      var k :| k in pending;
      var value := u[k];
      if k in r && r[k].JObj? && value.JObj? {
        var sub := DeepMerge(r[k].fields, value.fields);
        r := r[k := JObj(sub)];
      } else {
        r := r[k := value];
      }
      pending := pending - {k};
    }
  }

  // ---------------------------------------------------------------------
  // validate_config

  /** The sections that must be present, in the order they are checked. */
  const Sections := ["api", "data", "ui"]

  function MissingMessage(section: string): string {
    "Отсутствует обязательная секция: " + section
  }

  const TimeoutMessage := "api.timeout должен быть числом"
  const RetriesMessage := "api.max_retries должен быть целым числом"
  const ChartDaysMessage := "data.max_chart_days должен быть целым числом"
  const CacheEnabledMessage := "data.cache_enabled должен быть boolean"

  /** `[x]` when `flag` holds, else nothing: one conditional `append`. */
  function Pick(x: string, flag: bool): seq<string> {
    if flag then [x] else []
  }

  /** What `in` accepts as its right operand without raising. */
  predicate Container(j: Json) {
    j.JObj? || j.JStr? || j.JList?
  }

  /** The errors for the absent ones among `sections`, in order. */
  function MissingErrors(config: Json, sections: seq<string>): seq<string>
    requires Container(config)
    decreases |sections|
  {
    if sections == [] then []
    else
      var last := sections[|sections| - 1];
      MissingErrors(config, sections[..|sections| - 1]) + Pick(MissingMessage(last), !Contains(config, last).value)
  }

  /** The checks on the `api` section; `.get` raises AttributeError on a
      non-dict. An absent field takes a default that passes. */
  function ApiErrors(api: Json): Py<seq<string>> {
    match DictGet(api, "timeout", JInt(10))
    case Raise(e) => Raise(e)
    case Ok(timeout) =>
      match DictGet(api, "max_retries", JInt(3))
      case Raise(e) => Raise(e)
      case Ok(retries) => Ok(Pick(TimeoutMessage, !IsNumber(timeout)) + Pick(RetriesMessage, !IsInt(retries)))
  }

  /** The checks on the `data` section. */
  function DataErrors(data: Json): Py<seq<string>> {
    match DictGet(data, "max_chart_days", JInt(7))
    case Raise(e) => Raise(e)
    case Ok(days) =>
      match DictGet(data, "cache_enabled", JBool(true))
      case Raise(e) => Raise(e)
      case Ok(enabled) => Ok(Pick(ChartDaysMessage, !IsInt(days)) + Pick(CacheEnabledMessage, !IsBool(enabled)))
  }

  /** The checks on `api`, when `config` holds it. */
  function ApiSection(config: Json): Py<seq<string>>
    requires Container(config)
  {
    if !Contains(config, "api").value then Ok([])
    else match GetItem(config, "api")
      case Raise(e) => Raise(e)
      case Ok(api) => ApiErrors(api)
  }

  /** The checks on `data`, when `config` holds it. */
  function DataSection(config: Json): Py<seq<string>>
    requires Container(config)
  {
    if !Contains(config, "data").value then Ok([])
    else match GetItem(config, "data")
      case Raise(e) => Raise(e)
      case Ok(data) => DataErrors(data)
  }

  /** `validate_config(config)`: the list of errors, or the exception that
      escapes (a TypeError for a config `in` rejects or a str or list holding
      a section name, an AttributeError for a section that is not a dict). */
  function Validate(config: Json): Py<seq<string>> {
    if !Container(config) then Raise(TypeError)
    else
      match ApiSection(config)
      case Raise(e) => Raise(e)
      case Ok(api) =>
        match DataSection(config)
        case Raise(e) => Raise(e)
        case Ok(data) => Ok(MissingErrors(config, Sections) + api + data)
  }

  /** The `if 'api' in config:` block: appends its errors to `errors`. */
  method CheckApi(api: Json, errors: seq<string>) returns (r: Py<seq<string>>)
    ensures r == match ApiErrors(api) case Raise(e) => Raise(e) case Ok(found) => Ok(errors + found)
  {
    var timeout := DictGet(api, "timeout", JInt(10));
    if timeout.Raise? {
      return Raise(timeout.exc);
    }
    var out := errors;
    if !IsNumber(timeout.value) {
      out := out + [TimeoutMessage];
    }
    var retries := DictGet(api, "max_retries", JInt(3));
    if !IsInt(retries.value) {
      out := out + [RetriesMessage];
    }
    assert out == errors + (Pick(TimeoutMessage, !IsNumber(timeout.value)) + Pick(RetriesMessage, !IsInt(retries.value)));
    return Ok(out);
  }

  /** The `if 'data' in config:` block. */
  method CheckData(data: Json, errors: seq<string>) returns (r: Py<seq<string>>)
    ensures r == match DataErrors(data) case Raise(e) => Raise(e) case Ok(found) => Ok(errors + found)
  {
    var days := DictGet(data, "max_chart_days", JInt(7));
    if days.Raise? {
      return Raise(days.exc);
    }
    var out := errors;
    if !IsInt(days.value) {
      out := out + [ChartDaysMessage];
    }
    var enabled := DictGet(data, "cache_enabled", JBool(true));
    if !IsBool(enabled.value) {
      out := out + [CacheEnabledMessage];
    }
    assert out == errors + (Pick(ChartDaysMessage, !IsInt(days.value)) + Pick(CacheEnabledMessage, !IsBool(enabled.value)));
    return Ok(out);
  }

  /** `validate_config` as written: a loop appending the missing sections,
      then the type checks of `api` and of `data`. */
  method ValidateConfig(config: Json) returns (r: Py<seq<string>>)
    ensures r == Validate(config)
  {
    var errors: seq<string> := [];
    var i := 0;
    while i < |Sections|
      invariant 0 <= i <= |Sections|
      invariant i > 0 ==> Container(config)
      invariant Container(config) ==> errors == MissingErrors(config, Sections[..i])
    {
      var present := Contains(config, Sections[i]);
      if present.Raise? {
        return Raise(present.exc);
      }
      assert Sections[..i + 1][..i] == Sections[..i];
      if !present.value {
        errors := errors + [MissingMessage(Sections[i])];
      }
      i := i + 1;
    }
    assert Sections[..i] == Sections;
    assert errors + [] == errors;
    r := Ok(errors);
    if Contains(config, "api").value {
      var api := GetItem(config, "api");
      if api.Raise? {
        return Raise(api.exc);
      }
      r := CheckApi(api.value, errors);
    }
    if r.Ok? && Contains(config, "data").value {
      var data := GetItem(config, "data");
      if data.Raise? {
        return Raise(data.exc);
      }
      r := CheckData(data.value, r.value);
    }
    assert r.Ok? ==> r.value + [] == r.value;
  }

  /** The type a checked field must have. */
  datatype Kind = Number | Integer | Boolean

  predicate HasKind(j: Json, kind: Kind) {
    match kind
    case Number => IsNumber(j)
    case Integer => IsInt(j)
    case Boolean => IsBool(j)
  }

  /** The field `f` of section `s` is present and has the wrong type. */
  predicate Bad(m: map<string, Json>, s: string, f: string, kind: Kind) {
    s in m && m[s].JObj? && f in m[s].fields && !HasKind(m[s].fields[f], kind)
  }

  /** A section that is present but not a dict. */
  predicate NonDictSection(m: map<string, Json>, s: string) {
    s in m && !m[s].JObj?
  }

  /** The missing-section errors of a dict config. */
  lemma MissingOfDict(m: map<string, Json>)
    ensures MissingErrors(JObj(m), Sections) ==
      Pick(MissingMessage("api"), "api" !in m) + Pick(MissingMessage("data"), "data" !in m) + Pick(MissingMessage("ui"), "ui" !in m)
  {
    var c := JObj(m);
    assert Sections[..2] == ["api", "data"] && ["api", "data"][..1] == ["api"] && ["api"][..0] == [];
    assert MissingErrors(c, ["api"]) == Pick(MissingMessage("api"), "api" !in m);
  }

  /** A field read with `.get(f, default)` and a default of the right type
      has the wrong type exactly when it is present with the wrong type. */
  lemma GetWithDefault(fields: map<string, Json>, f: string, default: Json, kind: Kind)
    requires HasKind(default, kind)
    ensures var v := if f in fields then fields[f] else default;
      !HasKind(v, kind) <==> f in fields && !HasKind(fields[f], kind)
  {
  }

  /** The `api` checks of a dict config whose `api`, if any, is a dict. */
  lemma ApiSectionOfDict(m: map<string, Json>)
    requires !NonDictSection(m, "api")
    ensures ApiSection(JObj(m)) == Ok(Pick(TimeoutMessage, Bad(m, "api", "timeout", Number))
      + Pick(RetriesMessage, Bad(m, "api", "max_retries", Integer)))
  {
    var c := JObj(m);
    if "api" in m {
      var a := m["api"].fields;
      assert GetItem(c, "api") == Ok(m["api"]);
      GetWithDefault(a, "timeout", JInt(10), Number);
      GetWithDefault(a, "max_retries", JInt(3), Integer);
    } else {
      assert Contains(c, "api") == Ok(false);
      assert Pick(TimeoutMessage, false) + Pick(RetriesMessage, false) == [];
    }
  }

  /** The `data` checks of a dict config whose `data`, if any, is a dict. */
  lemma DataSectionOfDict(m: map<string, Json>)
    requires !NonDictSection(m, "data")
    ensures DataSection(JObj(m)) == Ok(Pick(ChartDaysMessage, Bad(m, "data", "max_chart_days", Integer))
      + Pick(CacheEnabledMessage, Bad(m, "data", "cache_enabled", Boolean)))
  {
    var c := JObj(m);
    if "data" in m {
      var d := m["data"].fields;
      assert GetItem(c, "data") == Ok(m["data"]);
      GetWithDefault(d, "max_chart_days", JInt(7), Integer);
      GetWithDefault(d, "cache_enabled", JBool(true), Boolean);
    } else {
      assert Contains(c, "data") == Ok(false);
      assert Pick(ChartDaysMessage, false) + Pick(CacheEnabledMessage, false) == [];
    }
  }

  /** For a dict config, `validate_config` raises exactly when `api` or `data`
      is present and not a dict, and otherwise returns one message per
      condition that holds, in the order the checks are written; an absent
      field is no error. */
  lemma ValidateLists(m: map<string, Json>)
    ensures Validate(JObj(m)).Raise? <==> NonDictSection(m, "api") || NonDictSection(m, "data")
    ensures !NonDictSection(m, "api") && !NonDictSection(m, "data") ==>
      Validate(JObj(m)) == Ok(
        Pick(MissingMessage("api"), "api" !in m) + Pick(MissingMessage("data"), "data" !in m)
        + Pick(MissingMessage("ui"), "ui" !in m)
        + (Pick(TimeoutMessage, Bad(m, "api", "timeout", Number))
           + Pick(RetriesMessage, Bad(m, "api", "max_retries", Integer)))
        + (Pick(ChartDaysMessage, Bad(m, "data", "max_chart_days", Integer))
           + Pick(CacheEnabledMessage, Bad(m, "data", "cache_enabled", Boolean))))
  {
    MissingOfDict(m);
    if !NonDictSection(m, "api") {
      ApiSectionOfDict(m);
    }
    if !NonDictSection(m, "data") {
      DataSectionOfDict(m);
    }
  }

  /** A dict config passes (an empty list) exactly when all three sections are
      present, `api` and `data` are dicts, and none of the four typed fields is
      present with a wrong type. */
  lemma ValidatePassesIff(m: map<string, Json>)
    ensures Validate(JObj(m)) == Ok([]) <==>
      && "api" in m && "data" in m && "ui" in m
      && m["api"].JObj? && m["data"].JObj?
      && !Bad(m, "api", "timeout", Number) && !Bad(m, "api", "max_retries", Integer)
      && !Bad(m, "data", "max_chart_days", Integer) && !Bad(m, "data", "cache_enabled", Boolean)
  {
    ValidateLists(m);
  }
}
