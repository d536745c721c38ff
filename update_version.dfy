/** `update_version(update_type)`: find the first `__version__ = "M.m.p"` in
    the version file's text, bump one component as semantic versioning
    prescribes, and rewrite every such assignment to the new version. The
    regular expression `__version__ = "(\d+)\.(\d+)\.(\d+)"` is matched by
    hand; the file is a `content` field. */
module VersionBump {
  import opened Text
  import opened PyValues

  datatype Version = Version(major: nat, minor: nat, patch: nat)

  /** The literal text of the pattern before the first number. */
  const Prefix := "__version__ = \""

  predicate AllDigits(s: string) {
    forall k :: 0 <= k < |s| ==> IsDigit(s[k])
  }

  /** The end of the run of digits starting at `i`. */
  function DigitsEnd(s: string, i: nat): (j: nat)
    requires i <= |s|
    ensures i <= j <= |s|
    decreases |s| - i
  {
    if i < |s| && IsDigit(s[i]) then DigitsEnd(s, i + 1) else i
  }

  /** The run is all digits, and what stops it is no digit. */
  lemma {:induction false} DigitsRun(s: string, i: nat)
    requires i <= |s|
    ensures AllDigits(s[i..DigitsEnd(s, i)])
    ensures DigitsEnd(s, i) < |s| ==> !IsDigit(s[DigitsEnd(s, i)])
    decreases |s| - i
  {
    if i < |s| && IsDigit(s[i]) {
      DigitsRun(s, i + 1);
      ConsSlice(s, i, DigitsEnd(s, i));
    }
  }

  /** `int(ds)` for a string of digits, leading zeros allowed. */
  function Num(ds: string): nat
    requires AllDigits(ds)
    decreases |ds|
  {
    if ds == [] then 0 else 10 * Num(ds[..|ds| - 1]) + DigitValue(ds[|ds| - 1])
  }

  /** `str(n)`: decimal digits without leading zeros. */
  function Decimal(n: nat): (s: string)
    ensures s != [] && AllDigits(s)
    decreases n
  {
    if n < 10 then [DigitChar(n)] else Decimal(n / 10) + [DigitChar(n % 10)]
  }

  /** `int(str(n)) == n`. */
  lemma {:induction false} NumDecimal(n: nat)
    ensures Num(Decimal(n)) == n
    decreases n
  {
    if n >= 10 {
      var s := Decimal(n);
      NumDecimal(n / 10);
      assert s[..|s| - 1] == Decimal(n / 10);
    }
  }

  /** The value of one character read as a digit. */
  function Digit(c: char): nat {
    if IsDigit(c) then DigitValue(c) else 0
  }

  /** `int(s[i:j])` for a run of digits between positions `i` and `j`. */
  function NumIn(s: string, i: nat, j: nat): nat
    requires i <= j <= |s|
    decreases j - i
  {
    if j == i then 0 else 10 * NumIn(s, i, j - 1) + Digit(s[j - 1])
  }

  /** One number of the pattern and the position after the character that
      must follow it. */
  datatype Group = Group(value: nat, next: nat)

  /** `\d+` at `i` followed by `stop`. A shorter run than the longest can
      never be followed by `stop`, which is no digit, so the longest is the
      only candidate. */
  function NumberThen(s: string, i: nat, stop: char): (r: Option<Group>)
    requires i <= |s|
    ensures r.Some? ==> i < r.value.next <= |s|
  {
    var j := DigitsEnd(s, i);
    if j == i || j == |s| || s[j] != stop then None else Some(Group(NumIn(s, i, j), j + 1))
  }

  /** A match: the three numbers and where the match ends. */
  datatype Found = Found(version: Version, end: nat)

  /** `t` stands at position `x` of `s`, character by character. */
  predicate Stands(s: string, x: nat, t: string) {
    x + |t| <= |s| && forall k :: 0 <= k < |t| ==> s[x + k] == t[k]
  }

  /** The literal start of the pattern stands at `i`. */
  predicate PrefixAt(s: string, i: nat) {
    Stands(s, i, Prefix)
  }

  /** The character that closes a number group when `n` groups are left: a
      dot, or the quote after the last one. */
  function Closer(n: nat): char {
    if n == 1 then '"' else '.'
  }

  /** The numbers of the groups read and the position after the last one. */
  datatype Read = Read(values: seq<nat>, next: nat)

  /** `n` number groups from position `x`: `(\d+)\.` for every group but the
      last, `(\d+)"` for the last. */
  function GroupsFrom(s: string, x: nat, n: nat): (r: Option<Read>)
    requires x <= |s|
    ensures r.Some? ==> |r.value.values| == n && x <= r.value.next <= |s|
    ensures r.Some? && n > 0 ==> x < r.value.next
    decreases n
  {
    if n == 0 then Some(Read([], x))
    else match NumberThen(s, x, Closer(n))
      case None => None
      case Some(g) =>
        match GroupsFrom(s, g.next, n - 1)
        case None => None
        case Some(rest) => Some(Read([g.value] + rest.values, rest.next))
  }

  /** The pattern matched at position `i` of `s`. */
  function MatchAt(s: string, i: nat): (r: Option<Found>)
    requires i <= |s|
    ensures r.Some? ==> i < r.value.end <= |s|
  {
    if !PrefixAt(s, i) then None
    else match GroupsFrom(s, i + |Prefix|, 3)
      case None => None
      case Some(g) => Some(Found(Version(g.values[0], g.values[1], g.values[2]), g.next))
  }

  /** Where a search found the pattern. */
  datatype Hit = Hit(at: nat, found: Found)

  /** The match attempt at every position of `s`, the end included. */
  function Attempts(s: string): (m: seq<Option<Found>>)
    ensures |m| == |s| + 1
    ensures forall q :: 0 <= q <= |s| ==> m[q] == MatchAt(s, q)
    ensures Advancing(m)
  {
    seq(|s| + 1, q requires 0 <= q <= |s| => MatchAt(s, q))
  }

  /** Every successful attempt ends after its start and inside the text. */
  predicate Advancing(m: seq<Option<Found>>) {
    forall q :: 0 <= q < |m| && m[q].Some? ==> q < m[q].value.end < |m|
  }

  /** The leftmost successful attempt from position `i` on. */
  function SearchIn(m: seq<Option<Found>>, i: nat): (r: Option<Hit>)
    requires i < |m|
    ensures r.Some? ==> i <= r.value.at < |m| && m[r.value.at] == Some(r.value.found)
    decreases |m| - i
  {
    match m[i]
    case Some(f) => Some(Hit(i, f))
    case None => if i == |m| - 1 then None else SearchIn(m, i + 1)
  }

  /** `re.search` from position `i`: the leftmost match. */
  function Search(s: string, i: nat): (r: Option<Hit>)
    requires i <= |s|
    ensures r.Some? ==> i <= r.value.at <= |s| && MatchAt(s, r.value.at) == Some(r.value.found)
  {
    SearchIn(Attempts(s), i)
  }

  /** Substitution from position `i` over the attempts `m` of `s`: each
      successful attempt, scanning left to right and resuming after it,
      becomes `repl`; every other character is copied. */
  function SubstituteIn(s: string, m: seq<Option<Found>>, i: nat, repl: string): string
    requires |m| == |s| + 1 && Advancing(m) && i <= |s|
    decreases |s| - i
  {
    if i == |s| then []
    else match m[i]
      case Some(f) => repl + SubstituteIn(s, m, f.end, repl)
      case None => [s[i]] + SubstituteIn(s, m, i + 1, repl)
  }

  /** `re.sub` from position `i`. */
  function Substitute(s: string, i: nat, repl: string): string
    requires i <= |s|
  {
    SubstituteIn(s, Attempts(s), i, repl)
  }

  /** The new version's text, `f"{major}.{minor}.{patch}"`. */
  function VersionText(v: Version): string {
    Decimal(v.major) + "." + Decimal(v.minor) + "." + Decimal(v.patch)
  }

  /** The replacement, `__version__ = "M.m.p"`. */
  function Line(v: Version): string {
    Prefix + VersionText(v) + "\""
  }

  /** The bump, or nothing for an update type other than the three. */
  function Bump(v: Version, updateType: string): Option<Version> {
    if updateType == "major" then Some(Version(v.major + 1, 0, 0))
    else if updateType == "minor" then Some(Version(v.major, v.minor + 1, 0))
    else if updateType == "patch" then Some(Version(v.major, v.minor, v.patch + 1))
    else None
  }

  /** What a successful call returns and writes. */
  datatype Update = Update(newVersion: string, newContent: string)

  /** `update_version(update_type)` on the file text `content`: nothing (the
      function returns False and writes nothing) when there is no match or
      the type is unknown. */
  function UpdateSpec(content: string, updateType: string): Option<Update> {
    match Search(content, 0)
    case None => None
    case Some(h) =>
      match Bump(h.found.version, updateType)
      case None => None
      case Some(w) => Some(Update(VersionText(w), Substitute(content, 0, Line(w))))
  }

  // ---------------------------------------------------------------------
  // Properties

  /** `(a.major, a.minor, a.patch) < (b.major, b.minor, b.patch)` as tuples. */
  predicate Less(a: Version, b: Version) {
    a.major < b.major
    || (a.major == b.major && a.minor < b.minor)
    || (a.major == b.major && a.minor == b.minor && a.patch < b.patch)
  }

  /** The three bumps, exactly; only those three types are accepted; and every
      bump gives a strictly greater version. */
  lemma BumpCases(v: Version, updateType: string)
    ensures Bump(v, updateType).Some? <==> updateType in {"major", "minor", "patch"}
    ensures updateType == "major" ==> Bump(v, updateType) == Some(Version(v.major + 1, 0, 0))
    ensures updateType == "minor" ==> Bump(v, updateType) == Some(Version(v.major, v.minor + 1, 0))
    ensures updateType == "patch" ==> Bump(v, updateType) == Some(Version(v.major, v.minor, v.patch + 1))
    ensures Bump(v, updateType).Some? ==> Less(v, Bump(v, updateType).value)
  {
  }

  /** A search from `i` fails at every position before the hit, and a failed
      search means no success anywhere from `i` on. */
  lemma {:induction false} SearchIsLeftmost(m: seq<Option<Found>>, i: nat)
    requires i < |m|
    ensures SearchIn(m, i).Some? ==> forall q :: i <= q < SearchIn(m, i).value.at ==> m[q].None?
    ensures SearchIn(m, i).None? ==> forall q :: i <= q < |m| ==> m[q].None?
    decreases |m| - i
  {
    if m[i].None? && i < |m| - 1 {
      SearchIsLeftmost(m, i + 1);
    }
  }

  /** A success at `p` with none before it is what the search finds. */
  lemma {:induction false} SearchFinds(m: seq<Option<Found>>, i: nat, p: nat)
    requires i <= p < |m| && m[p].Some?
    requires forall q :: i <= q < p ==> m[q].None?
    ensures SearchIn(m, i) == Some(Hit(p, m[p].value))
    decreases p - i
  {
    if i < p {
      SearchFinds(m, i + 1, p);
    }
  }

  /** Text without a match is copied unchanged. */
  lemma {:induction false} SubstituteUnmatched(s: string, m: seq<Option<Found>>, i: nat, repl: string)
    requires |m| == |s| + 1 && Advancing(m) && i <= |s|
    requires forall q :: i <= q <= |s| ==> m[q].None?
    ensures SubstituteIn(s, m, i, repl) == s[i..]
    decreases |s| - i
  {
    if i < |s| {
      SubstituteUnmatched(s, m, i + 1, repl);
      assert s[i..] == [s[i]] + s[i + 1..];
    }
  }

  lemma ConsSlice(s: string, i: nat, j: nat)
    requires i < j <= |s|
    ensures s[i..j] == [s[i]] + s[i + 1..j]
  {
  }

  /** The substitution copies the text before the first match, puts `repl` in
      place of that match, and goes on after it. */
  lemma {:induction false} SubstituteFirst(s: string, m: seq<Option<Found>>, i: nat, repl: string)
    requires |m| == |s| + 1 && Advancing(m) && i <= |s| && SearchIn(m, i).Some?
    ensures var h := SearchIn(m, i).value;
      SubstituteIn(s, m, i, repl) == s[i..h.at] + (repl + SubstituteIn(s, m, h.found.end, repl))
    decreases |s| - i
  {
    var h := SearchIn(m, i).value;
    var after := repl + SubstituteIn(s, m, h.found.end, repl);
    if h.at != i {
      assert m[i].None? && i < |s|;
      assert SearchIn(m, i) == SearchIn(m, i + 1);
      SubstituteFirst(s, m, i + 1, repl);
      ConsSlice(s, i, h.at);
      Assoc([s[i]], s[i + 1..h.at], after);
    } else {
      assert s[i..h.at] + after == after;
    }
  }

  lemma Assoc(a: string, b: string, c: string)
    ensures a + (b + c) == (a + b) + c
  {
  }

  /** With no match at all, the whole text comes back unchanged. */
  lemma NoMatchUnchanged(s: string, repl: string)
    requires Search(s, 0).None?
    ensures Substitute(s, 0, repl) == s
  {
    SearchIsLeftmost(Attempts(s), 0);
    SubstituteUnmatched(s, Attempts(s), 0, repl);
  }

  /** A run of digits `ds` standing at `i`, followed by a non-digit, ends
      where `ds` does, from any position inside it. */
  lemma {:induction false} DigitsEndOf(s: string, i: nat, ds: string, x: nat)
    requires Stands(s, i, ds) && AllDigits(ds) && i + |ds| < |s| && !IsDigit(s[i + |ds|])
    requires i <= x <= i + |ds|
    ensures DigitsEnd(s, x) == i + |ds|
    decreases i + |ds| - x
  {
    if x < i + |ds| {
      assert s[i + (x - i)] == ds[x - i];
      DigitsEndOf(s, i, ds, x + 1);
    }
  }

  /** Reading the first `m` digits of `ds` where it stands in `s`. */
  lemma {:induction false} NumInOf(s: string, i: nat, ds: string, m: nat)
    requires Stands(s, i, ds) && m <= |ds|
    ensures NumIn(s, i, i + m) == NumIn(ds, 0, m)
    decreases m
  {
    if m > 0 {
      assert s[i + (m - 1)] == ds[m - 1];
      NumInOf(s, i, ds, m - 1);
    }
  }

  /** Reading a whole digit string in place is `int` of it. */
  lemma {:induction false} NumInWhole(ds: string)
    requires AllDigits(ds)
    ensures NumIn(ds, 0, |ds|) == Num(ds)
    decreases |ds|
  {
    if ds != [] {
      var n := |ds| - 1;
      NumInOf(ds, 0, ds[..n], n);
      NumInWhole(ds[..n]);
    }
  }

  /** A non-empty run of digits `ds` at `i`, followed by `stop` (no digit),
      reads as `int(ds)`. */
  lemma NumberThenDigits(s: string, i: nat, ds: string, stop: char)
    requires !IsDigit(stop) && ds != [] && AllDigits(ds)
    requires Stands(s, i, ds) && i + |ds| < |s| && s[i + |ds|] == stop
    ensures NumberThen(s, i, stop) == Some(Group(Num(ds), i + |ds| + 1))
  {
    DigitsEndOf(s, i, ds, i);
    NumInOf(s, i, ds, |ds|);
    NumInWhole(ds);
  }

  /** Texts that agree before `j` read the same digits before `j`. */
  lemma {:induction false} NumInLocal(s: string, t: string, i: nat, j: nat)
    requires i <= j <= |s| && j <= |t| && s[..j] == t[..j]
    ensures NumIn(s, i, j) == NumIn(t, i, j)
    decreases j - i
  {
    if j > i {
      assert s[..j - 1] == s[..j][..j - 1] && t[..j - 1] == t[..j][..j - 1];
      assert s[j - 1] == s[..j][j - 1] && t[j - 1] == t[..j][j - 1];
      NumInLocal(s, t, i, j - 1);
    }
  }

  /** A piece of a piece that stands at `x` stands at the sum of offsets. */
  lemma StandsInner(s: string, x: nat, t: string, lo: nat, u: string)
    requires Stands(s, x, t) && lo + |u| <= |t| && t[lo..lo + |u|] == u
    ensures Stands(s, x + lo, u)
  {
    forall k | 0 <= k < |u|
      ensures s[x + lo + k] == u[k]
    {
      assert t[lo..lo + |u|][k] == t[lo + k];
      assert s[x + (lo + k)] == t[lo + k];
    }
  }

  /** The text of number groups spelled by the digit runs `runs`, each
      closed as the pattern demands. */
  function GroupsText(runs: seq<string>): string
    decreases |runs|
  {
    if runs == [] then [] else runs[0] + [Closer(|runs|)] + GroupsText(runs[1..])
  }

  /** Non-empty runs of digits. */
  predicate DigitRuns(runs: seq<string>) {
    forall r :: r in runs ==> r != [] && AllDigits(r)
  }

  /** The numbers the runs spell. */
  function Nums(runs: seq<string>): (ns: seq<nat>)
    requires DigitRuns(runs)
    ensures |ns| == |runs|
    decreases |runs|
  {
    if runs == [] then [] else [Num(runs[0])] + Nums(runs[1..])
  }

  /** A copy of the groups text of `runs` at `x` reads back as their numbers,
      ending where the text ends. */
  lemma {:induction false} GroupsFromText(s: string, x: nat, runs: seq<string>)
    requires DigitRuns(runs) && Stands(s, x, GroupsText(runs))
    ensures GroupsFrom(s, x, |runs|) == Some(Read(Nums(runs), x + |GroupsText(runs)|))
    decreases |runs|
  {
    if runs != [] {
      var d := runs[0];
      var c := Closer(|runs|);
      var tail := GroupsText(runs[1..]);
      var t := GroupsText(runs);
      var g := Group(Num(d), x + |d| + 1);
      assert d in runs;
      assert |t| == |d| + 1 + |tail| && Stands(s, x, d) && s[x + |d|] == c && Stands(s, x + |d| + 1, tail) by {
        GroupsTextCons(runs);
        StandsInner(s, x, t, 0, d);
        StandsInner(s, x, t, |d| + 1, tail);
        assert s[x + |d|] == t[|d|];
      }
      assert |runs| == |runs[1..]| + 1;
      assert NumberThen(s, x, c) == Some(g) by {
        NumberThenDigits(s, x, d, c);
      }
      assert DigitRuns(runs[1..]) by {
        assert forall r :: r in runs[1..] ==> r in runs;
      }
      GroupsFromText(s, x + |d| + 1, runs[1..]);
      GroupsFromStep(s, x, |runs[1..]|, Num(d), x + |d| + 1, Read(Nums(runs[1..]), x + |d| + 1 + |tail|));
      assert Nums(runs) == [Num(d)] + Nums(runs[1..]);
    }
  }

  /** The text of a non-empty list of runs splits after its first run and
      closer. */
  lemma GroupsTextCons(runs: seq<string>)
    requires runs != []
    ensures var t := GroupsText(runs);
      var d := runs[0];
      && |t| == |d| + 1 + |GroupsText(runs[1..])|
      && t[0..|d|] == d && t[|d|] == Closer(|runs|)
      && t[|d| + 1..|d| + 1 + |GroupsText(runs[1..])|] == GroupsText(runs[1..])
  {
    assert GroupsText(runs) == runs[0] + [Closer(|runs|)] + GroupsText(runs[1..]);
    ThreeParts(runs[0], Closer(|runs|), GroupsText(runs[1..]));
  }

  /** The pieces of `a + [c] + b`. */
  lemma ThreeParts(a: string, c: char, b: string)
    ensures var t := a + [c] + b;
      && |t| == |a| + 1 + |b|
      && t[0..|a|] == a && t[|a|] == c && t[|a| + 1..|a| + 1 + |b|] == b
  {
  }

  /** One step of reading groups: a group, then the remaining `n - 1`. */
  lemma GroupsFromStep(s: string, x: nat, m: nat, value: nat, next: nat, rest: Read)
    requires x <= |s| && NumberThen(s, x, Closer(m + 1)) == Some(Group(value, next))
    requires next <= |s| && GroupsFrom(s, next, m) == Some(rest)
    ensures GroupsFrom(s, x, m + 1) == Some(Read([value] + rest.values, rest.next))
  {
  }

  /** The digit runs of a version's text. */
  function Runs(v: Version): seq<string> {
    [Decimal(v.major), Decimal(v.minor), Decimal(v.patch)]
  }

  /** `Line(v)` is the prefix followed by the groups text of its runs, which
      spell the version. */
  lemma LineText(v: Version)
    ensures DigitRuns(Runs(v))
    ensures Line(v) == Prefix + GroupsText(Runs(v))
    ensures Nums(Runs(v)) == [v.major, v.minor, v.patch]
  {
    var runs := Runs(v);
    var a, b, c := runs[0], runs[1], runs[2];
    assert runs[1..] == [b, c] && [b, c][1..] == [c] && [c][1..] == [];
    var g3 := GroupsText([c]);
    assert GroupsText([c][1..]) == [];
    assert g3 == c + [Closer(1)] + [];
    assert g3 == c + ['"'];
    var g2 := GroupsText([b, c]);
    assert g2 == b + ['.'] + g3;
    assert GroupsText(runs) == a + ['.'] + g2;
    assert VersionText(v) + "\"" == a + ['.'] + g2;
    Assoc(Prefix, VersionText(v), "\"");
    assert DigitRuns(runs[1..]) && DigitRuns([c]) && DigitRuns([]);
    assert Nums([c]) == [Num(c)] + Nums([]);
    assert Nums([b, c]) == [Num(b)] + Nums([c]);
    assert Nums(runs) == [Num(a)] + Nums([b, c]);
    NumDecimal(v.major);
    NumDecimal(v.minor);
    NumDecimal(v.patch);
  }

  /** The prefix followed by the text of three digit runs, standing at `i`,
      is a match for their numbers, ending where the text ends. */
  lemma GroupsLineMatches(s: string, i: nat, runs: seq<string>)
    requires |runs| == 3 && DigitRuns(runs) && Stands(s, i, Prefix + GroupsText(runs))
    ensures var ns := Nums(runs);
      MatchAt(s, i) == Some(Found(Version(ns[0], ns[1], ns[2]), i + |Prefix| + |GroupsText(runs)|))
  {
    var g := GroupsText(runs);
    StandsSplit(s, i, Prefix, g);
    GroupsFromText(s, i + |Prefix|, runs);
    MatchAtFrom(s, i, Read(Nums(runs), i + |Prefix| + |g|));
  }

  /** Two pieces standing together stand one after the other. */
  lemma StandsSplit(s: string, x: nat, a: string, b: string)
    requires Stands(s, x, a + b)
    ensures Stands(s, x, a) && Stands(s, x + |a|, b)
  {
    assert (a + b)[0..|a|] == a;
    StandsInner(s, x, a + b, 0, a);
    assert (a + b)[|a|..|a| + |b|] == b;
    StandsInner(s, x, a + b, |a|, b);
  }

  /** A copy of `Line(v)` at `i` is a match for `v`, ending where it ends. */
  lemma LineMatchesAt(s: string, i: nat, v: Version)
    requires Stands(s, i, Line(v))
    ensures MatchAt(s, i) == Some(Found(v, i + |Line(v)|))
  {
    LineText(v);
    GroupsLineMatches(s, i, Runs(v));
  }

  /** An attempt where the prefix stands and three groups follow it finds
      those groups. */
  lemma MatchAtFrom(s: string, i: nat, g: Read)
    requires i + |Prefix| <= |s| && PrefixAt(s, i) && GroupsFrom(s, i + |Prefix|, 3) == Some(g)
    ensures MatchAt(s, i) == Some(Found(Version(g.values[0], g.values[1], g.values[2]), g.next))
  {
  }

  /** A piece put between two others stands right after the first. */
  lemma ConcatStands(x: string, u: string, rest: string)
    ensures Stands(x + u + rest, |x|, u)
  {
    var s := x + u + rest;
    forall k | 0 <= k < |u|
      ensures s[|x| + k] == u[k]
    {
    }
  }

  /** Two texts that agree up to and including a non-digit at `n` have the
      same digit runs from any `i <= n`. */
  lemma {:induction false} DigitsEndLocal(s: string, t: string, i: nat, n: nat)
    requires i <= n < |s| && n < |t| && s[..n + 1] == t[..n + 1] && !IsDigit(s[n])
    ensures DigitsEnd(s, i) == DigitsEnd(t, i) <= n
    decreases n - i
  {
    assert s[i] == s[..n + 1][i] && t[i] == t[..n + 1][i];
    if i < n && IsDigit(s[i]) {
      DigitsEndLocal(s, t, i + 1, n);
    }
  }

  /** A number group read at `i <= n` in texts that agree up to a character
      at `n` that is neither a digit nor `stop` reads the same in both, and
      ends before `n`. */
  lemma NumberThenLocal(s: string, t: string, i: nat, n: nat, stop: char)
    requires i <= n < |s| && n < |t| && s[..n + 1] == t[..n + 1] && !IsDigit(s[n]) && s[n] != stop
    ensures NumberThen(s, i, stop) == NumberThen(t, i, stop)
    ensures NumberThen(s, i, stop).Some? ==> NumberThen(s, i, stop).value.next <= n
  {
    DigitsEndLocal(s, t, i, n);
    var j := DigitsEnd(s, i);
    assert s[j] == s[..n + 1][j] && t[j] == t[..n + 1][j];
    assert s[..j] == s[..n + 1][..j] && t[..j] == t[..n + 1][..j];
    NumInLocal(s, t, i, j);
  }

  /** Number groups read from before a position `n` that holds neither a
      digit, a dot nor a quote read the same in texts that agree up to `n`. */
  lemma {:induction false} GroupsFromLocal(s: string, t: string, x: nat, groups: nat, n: nat)
    requires x <= n < |s| && n < |t| && s[..n + 1] == t[..n + 1]
    requires !IsDigit(s[n]) && s[n] != '.' && s[n] != '"'
    ensures GroupsFrom(s, x, groups) == GroupsFrom(t, x, groups)
    decreases groups
  {
    if groups > 0 {
      NumberThenLocal(s, t, x, n, Closer(groups));
      if NumberThen(s, x, Closer(groups)).Some? {
        GroupsFromLocal(s, t, NumberThen(s, x, Closer(groups)).value.next, groups - 1, n);
      }
    }
  }

  /** No character of the prefix is a digit, a dot or a quote, except the
      closing quote at its end. */
  lemma PrefixChars()
    ensures forall k :: 0 <= k < |Prefix| ==> !IsDigit(Prefix[k])
    ensures forall k :: 0 <= k < |Prefix| - 1 ==> Prefix[k] != '.' && Prefix[k] != '"'
    ensures Prefix[0] == '_'
  {
  }

  /** Texts that agree before `e` agree at every position before it. */
  lemma Agree(s: string, t: string, e: nat, x: nat)
    requires x < e <= |s| && e <= |t| && s[..e] == t[..e]
    ensures s[x] == t[x]
  {
    assert s[x] == s[..e][x] && t[x] == t[..e][x];
  }

  /** A match attempt that starts before a copy of the prefix at `p` reads
      only text up to that prefix's end, so two texts that agree up to there
      give the same result before `p`. */
  lemma MatchBeforePrefix(s: string, t: string, p: nat, q: nat)
    requires q < p && p + |Prefix| <= |s| && p + |Prefix| <= |t|
    requires s[..p + |Prefix|] == t[..p + |Prefix|] && PrefixAt(s, p)
    ensures MatchAt(s, q) == MatchAt(t, q)
  {
    PrefixBeforePrefix(s, t, p, q);
    GroupsBeforePrefix(s, t, p, q);
    MatchAtSame(s, t, q);
  }

  /** The prefix test before `p` reads only text the two agree on. */
  lemma PrefixBeforePrefix(s: string, t: string, p: nat, q: nat)
    requires q < p && p + |Prefix| <= |s| && p + |Prefix| <= |t|
    requires s[..p + |Prefix|] == t[..p + |Prefix|]
    ensures PrefixAt(s, q) == PrefixAt(t, q)
  {
    var e := p + |Prefix|;
    if PrefixAt(s, q) {
      forall k | 0 <= k < |Prefix|
        ensures t[q + k] == Prefix[k]
      {
        Agree(s, t, e, q + k);
      }
    }
    if PrefixAt(t, q) {
      forall k | 0 <= k < |Prefix|
        ensures s[q + k] == Prefix[k]
      {
        Agree(s, t, e, q + k);
      }
    }
  }

  /** Groups read from before the end of the prefix at `p` stop inside it:
      they run into its non-digits. */
  lemma GroupsBeforePrefix(s: string, t: string, p: nat, q: nat)
    requires q < p && p + |Prefix| <= |s| && p + |Prefix| <= |t|
    requires s[..p + |Prefix|] == t[..p + |Prefix|] && PrefixAt(s, p)
    ensures GroupsFrom(s, q + |Prefix|, 3) == GroupsFrom(t, q + |Prefix|, 3)
  {
    var e := p + |Prefix|;
    var a := q + |Prefix|;
    if a > p {
      assert !IsDigit(s[a]) && s[a] == t[a] by {
        PrefixChars();
        assert s[p + (a - p)] == Prefix[a - p];
        Agree(s, t, e, a);
      }
      NoGroupsAt(s, a);
      NoGroupsAt(t, a);
    } else {
      assert s[p] == '_' by {
        PrefixChars();
        assert s[p + 0] == Prefix[0];
      }
      assert s[..p + 1] == t[..p + 1] by {
        assert s[..p + 1] == s[..e][..p + 1] && t[..p + 1] == t[..e][..p + 1];
      }
      GroupsFromLocal(s, t, a, 3, p);
    }
  }

  /** No group starts at a non-digit. */
  lemma NoGroupsAt(s: string, a: nat)
    requires a < |s| && !IsDigit(s[a])
    ensures GroupsFrom(s, a, 3) == None
  {
    assert DigitsEnd(s, a) == a;
  }

  /** Two texts with the same prefix test and, when the prefix stands, the
      same groups after it, have the same attempt at `q`. */
  lemma MatchAtSame(s: string, t: string, q: nat)
    requires q <= |s| && q <= |t| && PrefixAt(s, q) == PrefixAt(t, q)
    requires PrefixAt(s, q) ==> GroupsFrom(s, q + |Prefix|, 3) == GroupsFrom(t, q + |Prefix|, 3)
    ensures MatchAt(s, q) == MatchAt(t, q)
  {
  }

  /** No attempt before `p` succeeds. */
  predicate NoMatchBefore(s: string, p: nat)
    requires p <= |s|
  {
    forall q :: 0 <= q < p ==> MatchAt(s, q).None?
  }

  /** Putting a line for any version in place of a match at `p` keeps the
      text up to the end of the prefix. */
  lemma RewriteKeepsPrefix(s: string, p: nat, v: Version, rest: string)
    requires PrefixAt(s, p)
    ensures var e := p + |Prefix|;
      e <= |s[..p] + Line(v) + rest| && (s[..p] + Line(v) + rest)[..e] == s[..e]
  {
    var e := p + |Prefix|;
    var line := Line(v);
    var t := s[..p] + line + rest;
    assert line[..|Prefix|] == Prefix;
    forall k | 0 <= k < e
      ensures t[k] == s[k]
    {
      if k >= p {
        assert t[k] == line[k - p] == line[..|Prefix|][k - p];
        assert s[p + (k - p)] == Prefix[k - p];
      }
    }
    assert t[..e] == s[..e];
  }

  /** Texts that agree up to the end of a prefix at `p`, where the first has
      no match before `p`, have no match before `p` in the second either. */
  lemma NoEarlierMatch(s: string, t: string, p: nat)
    requires p + |Prefix| <= |s| && p + |Prefix| <= |t|
    requires s[..p + |Prefix|] == t[..p + |Prefix|] && PrefixAt(s, p)
    requires NoMatchBefore(s, p)
    ensures NoMatchBefore(t, p)
  {
    forall q | 0 <= q < p
      ensures MatchAt(t, q).None?
    {
      MatchBeforePrefix(s, t, p, q);
    }
  }

  /** The search finds a match at `p` when there is none before it. */
  lemma FirstMatch(t: string, p: nat)
    requires p <= |t| && MatchAt(t, p).Some?
    requires NoMatchBefore(t, p)
    ensures Search(t, 0) == Some(Hit(p, MatchAt(t, p).value))
  {
    SearchFinds(Attempts(t), 0, p);
  }

  /** What the search finds is a match with the prefix at its start and no
      match before it. */
  lemma FoundFirst(s: string)
    requires Search(s, 0).Some?
    ensures var p := Search(s, 0).value.at;
      && PrefixAt(s, p)
      && NoMatchBefore(s, p)
  {
    SearchIsLeftmost(Attempts(s), 0);
  }

  /** The rewritten text is the text before the first match, the new line,
      and the rewritten rest. */
  lemma RewriteSplits(s: string, line: string)
    requires Search(s, 0).Some?
    ensures var h := Search(s, 0).value;
      Substitute(s, 0, line) == s[..h.at] + line + Substitute(s, h.found.end, line)
  {
    var m := Attempts(s);
    var h := SearchIn(m, 0).value;
    SubstituteFirst(s, m, 0, line);
    assert s[0..h.at] == s[..h.at];
    Assoc(s[..h.at], line, SubstituteIn(s, m, h.found.end, line));
  }

  /** `t` agrees with `s` up to the end of a prefix at `p`, where `s` has no
      earlier match, and holds the line for `w` at `p`. */
  predicate LineReplaces(s: string, t: string, p: nat, w: Version) {
    && p + |Prefix| <= |s| && PrefixAt(s, p) && NoMatchBefore(s, p)
    && Stands(t, p, Line(w)) && p + |Prefix| <= |t|
    && s[..p + |Prefix|] == t[..p + |Prefix|]
  }

  /** Such a text, built from `s` around its first match `h`, has the line
      for `w` as its first match. */
  lemma LineFirst(s: string, h: Hit, t: string, w: Version)
    requires Search(s, 0) == Some(h)
    requires LineReplaces(s, t, h.at, w)
    ensures Search(t, 0) == Some(Hit(h.at, Found(w, h.at + |Line(w)|)))
  {
    LineMatchesAt(t, h.at, w);
    NoEarlierMatch(s, t, h.at);
    FirstMatch(t, h.at);
  }

  /** Rewriting with the line for `w` puts that line where the first match
      `h` was and keeps the text up to the end of its prefix. */
  lemma RewriteShape(content: string, h: Hit, w: Version)
    requires Search(content, 0) == Some(h)
    ensures LineReplaces(content, Substitute(content, 0, Line(w)), h.at, w)
  {
    var rest := Substitute(content, h.found.end, Line(w));
    RewriteSplits(content, Line(w));
    FoundFirst(content);
    RewriteKeepsPrefix(content, h.at, w, rest);
    ConcatStands(content[..h.at], Line(w), rest);
  }

  /** Rewriting every match to the line for `w` leaves, as the first match,
      the line for `w` at the place the first match `h` was. */
  lemma RewriteFindsLine(content: string, h: Hit, w: Version)
    requires Search(content, 0) == Some(h)
    ensures Search(Substitute(content, 0, Line(w)), 0) == Some(Hit(h.at, Found(w, h.at + |Line(w)|)))
  {
    var t := Substitute(content, 0, Line(w));
    RewriteShape(content, h, w);
    LineFirst(content, h, t, w);
  }

  /** When the first match `h` is found and its version bumps to `w`, the
      update returns the text of `w`, and reading the version back from the
      rewritten text finds `w`, at the place the old one was found. */
  lemma UpdateReadsBack(content: string, updateType: string, h: Hit, w: Version)
    requires Search(content, 0) == Some(h) && Bump(h.found.version, updateType) == Some(w)
    ensures UpdateSpec(content, updateType).Some?
    ensures var u := UpdateSpec(content, updateType).value;
      && u.newVersion == VersionText(w)
      && Search(u.newContent, 0) == Some(Hit(h.at, Found(w, h.at + |Line(w)|)))
  {
    RewriteFindsLine(content, h, w);
  }

  // ---------------------------------------------------------------------
  // The file

  /** The version file, whose text `update_version` reads and rewrites. */
  class VersionFile {
    var content: string

    constructor (text: string)
      ensures content == text
    {
      content := text;
    }

    /** `update_version(update_type)`: `None` for Python's False. */
    method UpdateVersion(updateType: string) returns (r: Option<string>)
      modifies this
      ensures UpdateSpec(old(content), updateType).None? ==> r.None? && content == old(content)
      ensures UpdateSpec(old(content), updateType).Some? ==>
        r == Some(UpdateSpec(old(content), updateType).value.newVersion)
        && content == UpdateSpec(old(content), updateType).value.newContent
    {
      var found := Search(content, 0);
      if found.None? {
        return None;
      }
      var major, minor, patch := found.value.found.version.major, found.value.found.version.minor, found.value.found.version.patch;
      if updateType == "major" {
        major := major + 1;
        minor := 0;
        patch := 0;
      } else if updateType == "minor" {
        minor := minor + 1;
        patch := 0;
      } else if updateType == "patch" {
        patch := patch + 1;
      } else {
        return None;
      }
      var newVersion := Decimal(major) + "." + Decimal(minor) + "." + Decimal(patch);
      assert newVersion == VersionText(Version(major, minor, patch));
      content := Substitute(content, 0, Prefix + newVersion + "\"");
      return Some(newVersion);
    }
  }
}
