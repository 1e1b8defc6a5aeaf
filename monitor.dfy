/** The monitor page: a ticker map restricted to one base coin, three top-10
    boards (gainers, losers, volume), and alerts for price drops, price
    gains and volume jumps, each with a per-(type, symbol) cool-down, kept
    in a newest-first feed whose stale tail expires after an hour. */
module Monitor {
  import opened Wrappers
  import opened Text
  import opened Sorting
  import opened JsObject

  /** A monitored ticker: last price, 24h volume, and the price and volume
      change percentages by window ("1m", "15m", "1h", "24h", ...). */
  datatype MTicker = MTicker(symbol: string, close: real, volume: real,
                             priceChangePct: map<string, real>,
                             volumeChangePct: map<string, real>)

  function PriceChange(t: MTicker, window: string): Option<real> {
    if window in t.priceChangePct then Some(t.priceChangePct[window]) else None
  }

  function VolumeChange(t: MTicker, window: string): Option<real> {
    if window in t.volumeChangePct then Some(t.volumeChangePct[window]) else None
  }

  /** A missing number used as a sort key reads as 0. */
  function KeyOf(x: Option<real>): real {
    x.GetOr(0.0)
  }

  // ----- the interval parser -----

  predicate IsDigit(c: char) {
    '0' <= c <= '9'
  }

  /** The characters `\w` matches. */
  predicate IsWordChar(c: char) {
    IsDigit(c) || 'a' <= c <= 'z' || 'A' <= c <= 'Z' || c == '_'
  }

  predicate AllDigits(s: string) {
    forall i :: 0 <= i < |s| ==> IsDigit(s[i])
  }

  /** The number a string of decimal digits denotes. */
  function DecimalValue(d: string): nat
    requires AllDigits(d)
    decreases |d|
  {
    if d == [] then 0
    else DecimalValue(d[..|d| - 1]) * 10 + (d[|d| - 1] as int - '0' as int)
  }

  /** The leftmost position at or after `i` where `(\d+)(\w+)` matches: a
      digit followed by a word character. */
  function MatchStart(s: string, i: nat): (r: Option<nat>)
    ensures r.Some? ==> i <= r.value && r.value + 1 < |s| && IsDigit(s[r.value]) && IsWordChar(s[r.value + 1])
    ensures r.Some? ==> forall k :: i <= k < r.value ==> !(k + 1 < |s| && IsDigit(s[k]) && IsWordChar(s[k + 1]))
    ensures r.None? ==> forall k :: i <= k ==> !(k + 1 < |s| && IsDigit(s[k]) && IsWordChar(s[k + 1]))
    decreases |s| - i
  {
    if i + 1 >= |s| then None
    else if IsDigit(s[i]) && IsWordChar(s[i + 1]) then Some(i)
    else MatchStart(s, i + 1)
  }

  /** The end of the run of digits starting at `i`. */
  function DigitRunEnd(s: string, i: nat): (j: nat)
    requires i <= |s|
    ensures i <= j <= |s| && (j == |s| || !IsDigit(s[j]))
    ensures forall k :: i <= k < j ==> IsDigit(s[k])
    decreases |s| - i
  {
    if i < |s| && IsDigit(s[i]) then DigitRunEnd(s, i + 1) else i
  }

  /** The end of the run of word characters starting at `i`. */
  function WordRunEnd(s: string, i: nat): (j: nat)
    requires i <= |s|
    ensures i <= j <= |s| && (j == |s| || !IsWordChar(s[j]))
    ensures forall k :: i <= k < j ==> IsWordChar(s[k])
    decreases |s| - i
  {
    if i < |s| && IsWordChar(s[i]) then WordRunEnd(s, i + 1) else i
  }

  /** The groups of the first match of `(\d+)(\w+)`: the greedy digit group
      gives back its last digit when nothing else follows it. */
  function IntervalParts(s: string): (r: Option<(string, string)>)
    ensures r.Some? ==> AllDigits(r.value.0) && r.value.0 != [] && r.value.1 != []
  {
    match MatchStart(s, 0)
    case None => None
    case Some(i) =>
      var j := DigitRunEnd(s, i);
      assert j > i;
      if j < |s| && IsWordChar(s[j]) then
        var e := WordRunEnd(s, j);
        Some((s[i..j], s[j..e]))
      else
        assert j >= i + 2;
        Some((s[i..j - 1], s[j - 1..j]))
  }

  /** `intervalStringToMillis`: minutes and hours convert, any other unit
      gives 0, and a string without a match fails (`parts` is null). */
  function IntervalStringToMillis(s: string): (r: Result<int>)
    ensures r.Err? <==> IntervalParts(s).None?
    ensures r.Ok? ==> r.value >= 0
  {
    match IntervalParts(s)
    case None => Err(TypeError)
    case Some((digits, unit)) =>
      if unit == "m" then Ok(DecimalValue(digits) * 60 * 1000)
      else if unit == "h" then Ok(DecimalValue(digits) * 3600 * 1000)
      else Ok(0)
  }

  /** The conversion by unit: minutes, hours, and 0 for anything else. */
  lemma IntervalUnits(s: string)
    requires IntervalParts(s).Some?
    ensures var (digits, unit) := IntervalParts(s).value;
            IntervalStringToMillis(s) ==
              Ok(if unit == "m" then DecimalValue(digits) * 60000
                 else if unit == "h" then DecimalValue(digits) * 3600000
                 else 0)
  {
  }

  lemma {:induction false} DigitRunOver(s: string, i: nat, n: nat)
    requires i <= n < |s| && (forall k :: i <= k < n ==> IsDigit(s[k])) && !IsDigit(s[n])
    ensures DigitRunEnd(s, i) == n
    decreases n - i
  {
    if i < n {
      DigitRunOver(s, i + 1, n);
    }
  }

  /** Digits followed by one non-digit word character split into the
      digits and that character. */
  lemma IntervalPartsOfDigitsAndUnit(d: string, u: char)
    requires d != [] && AllDigits(d) && IsWordChar(u) && !IsDigit(u)
    ensures IntervalParts(d + [u]) == Some((d, [u]))
  {
    var s := d + [u];
    assert forall k :: 0 <= k < |d| ==> s[k] == d[k];
    assert s[|d|] == u;
    assert IsDigit(s[0]) && IsWordChar(s[1]);
    assert MatchStart(s, 0) == Some(0);
    DigitRunOver(s, 0, |d|);
    assert WordRunEnd(s, |d| + 1) == |d| + 1;
    assert WordRunEnd(s, |d|) == |d| + 1;
    assert s[0..|d|] == d;
    assert |s[|d|..|d| + 1]| == 1 && s[|d|..|d| + 1][0] == u;
    assert s[|d|..|d| + 1] == [u];
  }

  /** "<digits>m" is that many minutes and "<digits>h" that many hours. */
  lemma IntervalOfDigitsAndUnit(d: string)
    requires d != [] && AllDigits(d)
    ensures IntervalStringToMillis(d + "m") == Ok(DecimalValue(d) * 60000)
    ensures IntervalStringToMillis(d + "h") == Ok(DecimalValue(d) * 3600000)
  {
    IntervalPartsOfDigitsAndUnit(d, 'm');
    IntervalUnits(d + "m");
    IntervalPartsOfDigitsAndUnit(d, 'h');
    IntervalUnits(d + "h");
  }

  /** The default alert window "15m" is 15 minutes. */
  lemma IntervalOfFifteenMinutes()
    ensures IntervalStringToMillis("15m") == Ok(900000)
  {
    IntervalOfDigitsAndUnit("15");
    assert "15" + "m" == "15m";
    assert DecimalValue("15") == 15 by {
      assert "15"[..1] == "1";
      assert "1"[..0] == "";
    }
  }

  /** "1h" is an hour. */
  lemma IntervalOfOneHour()
    ensures IntervalStringToMillis("1h") == Ok(3600000)
  {
    IntervalOfDigitsAndUnit("1");
    assert "1" + "h" == "1h";
    assert DecimalValue("1") == 1 by {
      assert "1"[..0] == "";
    }
  }

  /** A day unit is unknown and gives 0. */
  lemma IntervalOfDays()
    ensures IntervalStringToMillis("1d") == Ok(0)
  {
    IntervalPartsOfDigitsAndUnit("1", 'd');
    assert "1" + ['d'] == "1d";
  }

  /** Bare digits split as all but the last digit and the last digit as the
      unit, which is unknown: "123" gives 0. */
  lemma IntervalOfBareDigits()
    ensures IntervalParts("123") == Some(("12", "3"))
    ensures IntervalStringToMillis("123") == Ok(0)
  {
    var s := "123";
    assert MatchStart(s, 0) == Some(0);
    DigitRunEnd3();
    assert s[0..2] == "12" && s[2..3] == "3";
  }

  lemma DigitRunEnd3()
    ensures DigitRunEnd("123", 0) == 3
  {
    assert DigitRunEnd("123", 3) == 3;
    assert DigitRunEnd("123", 2) == 3;
    assert DigitRunEnd("123", 1) == 3;
  }

  /** Text with no digit followed by a word character has no match, and
      the conversion fails. */
  lemma IntervalWithoutMatch()
    ensures IntervalStringToMillis("m") == Err(TypeError)
    ensures IntervalStringToMillis("5 m") == Err(TypeError)
  {
    assert MatchStart("5 m", 2) == None;
    assert MatchStart("5 m", 1) == None;
    assert MatchStart("5 m", 0) == None;
  }

  // ----- the ticker map -----

  /** What one incoming ticker does to the map: a symbol outside the base
      coin is skipped, a blacklisted one is deleted, any other is stored. */
  function MergeOne(d: Dict<MTicker>, t: MTicker, base: string, blacklist: string): Dict<MTicker> {
    if !EndsWith(t.symbol, base) then d
    else if Blacklisted(blacklist, t.symbol) then d.Remove(t.symbol)
    else d.Put(t.symbol, t)
  }

  function MergeAll(d: Dict<MTicker>, ts: seq<MTicker>, base: string, blacklist: string): Dict<MTicker>
    decreases |ts|
  {
    if ts == [] then d
    else
      var n := |ts| - 1;
      MergeOne(MergeAll(d, ts[..n], base, blacklist), ts[n], base, blacklist)
  }

  ghost predicate KeyedBySymbol(d: Dict<MTicker>) {
    d.Valid() && forall k :: k in d.entries ==> d.entries[k].symbol == k
  }

  predicate LastWithSymbol(ts: seq<MTicker>, k: int, symbol: string) {
    0 <= k < |ts| && ts[k].symbol == symbol &&
    forall j :: k < j < |ts| ==> ts[j].symbol != symbol
  }

  lemma MergeOneKeeps(d: Dict<MTicker>, t: MTicker, base: string, blacklist: string)
    requires KeyedBySymbol(d)
    ensures KeyedBySymbol(MergeOne(d, t, base, blacklist))
  {
  }

  lemma {:induction false} MergeKeeps(d: Dict<MTicker>, ts: seq<MTicker>, base: string, blacklist: string)
    requires KeyedBySymbol(d)
    ensures KeyedBySymbol(MergeAll(d, ts, base, blacklist))
    decreases |ts|
  {
    if ts != [] {
      MergeKeeps(d, ts[..|ts| - 1], base, blacklist);
      MergeOneKeeps(MergeAll(d, ts[..|ts| - 1], base, blacklist), ts[|ts| - 1], base, blacklist);
    }
  }

  /** One incoming ticker only touches its own symbol. */
  lemma MergeOneGet(d: Dict<MTicker>, t: MTicker, base: string, blacklist: string, symbol: string)
    ensures MergeOne(d, t, base, blacklist).Get(symbol) ==
              if t.symbol != symbol || !EndsWith(symbol, base) then d.Get(symbol)
              else if Blacklisted(blacklist, symbol) then None
              else Some(t)
  {
  }

  /** A symbol outside the base coin, or not in the update, keeps its entry
      or its absence. */
  lemma {:induction false} MergeUntouched(d: Dict<MTicker>, ts: seq<MTicker>, base: string, blacklist: string, symbol: string)
    requires !EndsWith(symbol, base) || forall i :: 0 <= i < |ts| ==> ts[i].symbol != symbol
    ensures MergeAll(d, ts, base, blacklist).Get(symbol) == d.Get(symbol)
    decreases |ts|
  {
    if ts != [] {
      var n := |ts| - 1;
      assert forall i :: 0 <= i < n ==> ts[..n][i] == ts[i];
      MergeUntouched(d, ts[..n], base, blacklist, symbol);
      MergeOneGet(MergeAll(d, ts[..n], base, blacklist), ts[n], base, blacklist, symbol);
    }
  }

  /** An incoming blacklisted symbol of the base coin is gone. */
  lemma {:induction false} MergeBlacklistedGone(d: Dict<MTicker>, ts: seq<MTicker>, base: string, blacklist: string, symbol: string, i: nat)
    requires EndsWith(symbol, base) && Blacklisted(blacklist, symbol)
    requires i < |ts| && ts[i].symbol == symbol
    ensures MergeAll(d, ts, base, blacklist).Get(symbol) == None
    decreases |ts|
  {
    var n := |ts| - 1;
    MergeOneGet(MergeAll(d, ts[..n], base, blacklist), ts[n], base, blacklist, symbol);
    if ts[n].symbol != symbol {
      assert ts[..n][i] == ts[i];
      MergeBlacklistedGone(d, ts[..n], base, blacklist, symbol, i);
    }
  }

  /** Any other incoming symbol of the base coin holds its last incoming
      ticker. */
  lemma {:induction false} MergeLastWins(d: Dict<MTicker>, ts: seq<MTicker>, base: string, blacklist: string, symbol: string, k: nat)
    requires EndsWith(symbol, base) && !Blacklisted(blacklist, symbol)
    requires LastWithSymbol(ts, k, symbol)
    ensures MergeAll(d, ts, base, blacklist).Get(symbol) == Some(ts[k])
    decreases |ts|
  {
    var n := |ts| - 1;
    MergeOneGet(MergeAll(d, ts[..n], base, blacklist), ts[n], base, blacklist, symbol);
    if k < n {
      assert LastWithSymbol(ts[..n], k, symbol);
      MergeLastWins(d, ts[..n], base, blacklist, symbol, k);
    }
  }

  /** The blacklist scan of `update`. */
  method IsBlacklisted(entries: seq<string>, symbol: string) returns (skip: bool)
    ensures skip <==> Listed(entries, symbol)
  {
    skip := false;
    for j := 0 to |entries|
      invariant !skip
      invariant forall k :: 0 <= k < j ==> !SameSymbol(entries[k], symbol)
    {
      if Lower(entries[j]) == Lower(symbol) {
        skip := true;
        break;
      }
    }
  }

  /** The merge loop of `update`. */
  method MergeTickers(d: Dict<MTicker>, incoming: seq<MTicker>, base: string, blacklist: string) returns (r: Dict<MTicker>)
    ensures r == MergeAll(d, incoming, base, blacklist)
  {
    var entries := SplitEntries(blacklist);
    r := d;
    for i := 0 to |incoming|
      invariant r == MergeAll(d, incoming[..i], base, blacklist)
    {
      assert incoming[..i + 1][..i] == incoming[..i];
      var t := incoming[i];
      if !EndsWith(t.symbol, base) {
        continue;
      }
      var skip := IsBlacklisted(entries, t.symbol);
      if skip {
        r := r.Remove(t.symbol);
        continue;
      }
      r := r.Put(t.symbol, t);
    }
    assert incoming[..|incoming|] == incoming;
  }

  // ----- the boards -----

  datatype BoardKind = Gainers | Losers | ByVolume

  /** A board's settings: its window and its display order. */
  datatype BoardConfig = BoardConfig(sortOrder: string, sortBy: string, range: string)

  /** A ticker with the board's fields filled in for its window. The volume
      board leaves the 24h price change unset. */
  datatype Meta = Meta(ticker: MTicker, priceChangePercent: Option<real>,
                       volumeChangePercent: Option<real>, priceChangePercent24: Option<real>)

  function ToMeta(kind: BoardKind, t: MTicker, range: string): Meta {
    Meta(t, PriceChange(t, range), VolumeChange(t, range),
         if kind == ByVolume then None else PriceChange(t, "24h"))
  }

  /** The filter of each board; a missing change is not filtered out, as
      comparisons with `undefined` are false. */
  predicate Candidate(kind: BoardKind, t: MTicker, range: string) {
    match kind
    case Gainers => !(PriceChange(t, range).Some? && PriceChange(t, range).value <= 0.0)
    case Losers => !(PriceChange(t, range).Some? && PriceChange(t, range).value >= 0.0)
    case ByVolume => true
  }

  function PriceKey(range: string): MTicker -> real {
    (t: MTicker) => KeyOf(PriceChange(t, range))
  }

  function VolumeKey(range: string): MTicker -> real {
    (t: MTicker) => KeyOf(VolumeChange(t, range))
  }

  /** The ranking before the cut: gainers by price change descending,
      losers ascending, the volume board by volume change descending. */
  function RankOrder(kind: BoardKind, range: string): (MTicker, MTicker) -> bool {
    match kind
    case Gainers => ByKeyDesc(PriceKey(range))
    case Losers => ByKeyAsc(PriceKey(range))
    case ByVolume => ByKeyDesc(VolumeKey(range))
  }

  function Candidates(kind: BoardKind, s: seq<MTicker>, range: string): (r: seq<MTicker>)
    ensures forall t :: t in r <==> t in s && Candidate(kind, t, range)
    decreases |s|
  {
    if s == [] then []
    else
      var n := |s| - 1;
      assert forall t :: t in s <==> t in s[..n] || t == s[n] by {
        assert s == s[..n] + [s[n]];
      }
      Candidates(kind, s[..n], range) + (if Candidate(kind, s[n], range) then [s[n]] else [])
  }

  function Metas(kind: BoardKind, s: seq<MTicker>, range: string): (r: seq<Meta>)
    ensures |r| == |s| && forall i :: 0 <= i < |s| ==> r[i] == ToMeta(kind, s[i], range)
  {
    seq(|s|, i requires 0 <= i < |s| => ToMeta(kind, s[i], range))
  }

  /** `slice(0, n)`. */
  function First<T>(s: seq<T>, n: nat): (r: seq<T>)
    ensures |r| == if n < |s| then n else |s|
  {
    if n < |s| then s[..n] else s
  }

  /** A board field of a shown ticker as a sort key. */
  function MetaField(m: Meta, field: string): real {
    if field == "priceChangePercent" then KeyOf(m.priceChangePercent)
    else if field == "volumeChangePercent" then KeyOf(m.volumeChangePercent)
    else if field == "priceChangePercent24" then KeyOf(m.priceChangePercent24)
    else if field == "volume" then m.ticker.volume
    else if field == "close" then m.ticker.close
    else 0.0
  }

  /** `symbolTrackerSortFunc` as the relation "may come first": "asc" keeps
      the natural order, any other order reverses it; symbols compare as
      strings and other fields by difference. */
  function MetaOrder(field: string, order: string): (Meta, Meta) -> bool {
    if field == "symbol" then
      if order == "asc" then (a: Meta, b: Meta) => LexLe(a.ticker.symbol, b.ticker.symbol)
      else (a: Meta, b: Meta) => LexLe(b.ticker.symbol, a.ticker.symbol)
    else if order == "asc" then (a: Meta, b: Meta) => MetaField(a, field) <= MetaField(b, field)
    else (a: Meta, b: Meta) => MetaField(a, field) >= MetaField(b, field)
  }

  lemma MetaOrderIsTotalPreorder(field: string, order: string)
    ensures TotalPreorder(MetaOrder(field, order))
  {
    var le := MetaOrder(field, order);
    if field == "symbol" {
      forall a: Meta, b: Meta ensures le(a, b) || le(b, a) {
        LexLeTotal(a.ticker.symbol, b.ticker.symbol);
      }
      forall a: Meta, b: Meta, c: Meta | le(a, b) && le(b, c) ensures le(a, c) {
        if order == "asc" {
          LexLeTransitive(a.ticker.symbol, b.ticker.symbol, c.ticker.symbol);
        } else {
          LexLeTransitive(c.ticker.symbol, b.ticker.symbol, a.ticker.symbol);
        }
      }
    }
  }

  lemma RankOrderIsTotalPreorder(kind: BoardKind, range: string)
    ensures TotalPreorder(RankOrder(kind, range))
  {
    KeyOrdersArePreorders(PriceKey(range));
    KeyOrdersArePreorders(VolumeKey(range));
  }

  /** A board: the candidates ranked, the first 10, re-sorted for display. */
  function Board(kind: BoardKind, values: seq<MTicker>, cfg: BoardConfig): seq<Meta> {
    Sort(Metas(kind, Top(kind, values, cfg.range), cfg.range), MetaOrder(cfg.sortBy, cfg.sortOrder))
  }

  /** The candidates in rank order. */
  function Ranked(kind: BoardKind, values: seq<MTicker>, range: string): seq<MTicker> {
    Sort(Candidates(kind, values, range), RankOrder(kind, range))
  }

  /** The first 10 ranked candidates, before the display sort. */
  function Top(kind: BoardKind, values: seq<MTicker>, range: string): seq<MTicker> {
    First(Ranked(kind, values, range), 10)
  }

  function TickersOf(ms: seq<Meta>): (r: seq<MTicker>)
    ensures |r| == |ms| && forall i :: 0 <= i < |ms| ==> r[i] == ms[i].ticker
  {
    seq(|ms|, i requires 0 <= i < |ms| => ms[i].ticker)
  }

  /** In a sorted sequence every element after the cut ranks no higher than
      every element before it. */
  lemma FirstOfSorted<T>(s: seq<T>, n: nat, le: (T, T) -> bool)
    requires SortedBy(s, le)
    ensures forall x, y :: x in First(s, n) && y in s && y !in First(s, n) ==> le(x, y)
  {
    forall x, y | x in First(s, n) && y in s && y !in First(s, n) ensures le(x, y) {
      var i :| 0 <= i < |First(s, n)| && First(s, n)[i] == x;
      var j :| 0 <= j < |s| && s[j] == y;
      assert First(s, n)[i] == s[i];
      assert j >= |First(s, n)| by {
        assert forall k :: 0 <= k < |First(s, n)| ==> First(s, n)[k] == s[k];
      }
    }
  }

  /** A candidate of the map that the board does not show. */
  predicate LeftOff(kind: BoardKind, values: seq<MTicker>, cfg: BoardConfig, t: MTicker) {
    t in values && Candidate(kind, t, cfg.range) && t !in TickersOf(Board(kind, values, cfg))
  }

  /** Every shown entry is the board fields of one of the top 10. */
  lemma BoardEntry(kind: BoardKind, values: seq<MTicker>, cfg: BoardConfig, m: Meta) returns (i: nat)
    requires m in Board(kind, values, cfg)
    ensures i < |Top(kind, values, cfg.range)| && m == ToMeta(kind, Top(kind, values, cfg.range)[i], cfg.range)
  {
    var metas := Metas(kind, Top(kind, values, cfg.range), cfg.range);
    assert m in multiset(metas);
    var k :| 0 <= k < |metas| && metas[k] == m;
    i := k;
  }

  /** Each of the top 10 is a ranked candidate. */
  lemma TopEntry(kind: BoardKind, values: seq<MTicker>, range: string, i: nat)
    requires i < |Top(kind, values, range)|
    ensures Top(kind, values, range)[i] == Ranked(kind, values, range)[i]
    ensures Top(kind, values, range)[i] in values && Candidate(kind, Top(kind, values, range)[i], range)
  {
    var ranked := Ranked(kind, values, range);
    assert ranked[i] in multiset(ranked);
  }

  /** Each of the top 10 is shown. */
  lemma TopShown(kind: BoardKind, values: seq<MTicker>, cfg: BoardConfig, x: MTicker)
    requires x in Top(kind, values, cfg.range)
    ensures x in TickersOf(Board(kind, values, cfg))
  {
    var top := Top(kind, values, cfg.range);
    var metas := Metas(kind, top, cfg.range);
    var board := Board(kind, values, cfg);
    var i :| 0 <= i < |top| && top[i] == x;
    assert metas[i] in multiset(board);
    var j :| 0 <= j < |board| && board[j] == metas[i];
    assert TickersOf(board)[j] == x;
  }

  /** A board shows at most 10 candidates from the map, each with its board
      fields. */
  lemma BoardMembers(kind: BoardKind, values: seq<MTicker>, cfg: BoardConfig)
    ensures |Board(kind, values, cfg)| <= 10
    ensures forall m :: m in Board(kind, values, cfg) ==>
              m.ticker in values && Candidate(kind, m.ticker, cfg.range) && m == ToMeta(kind, m.ticker, cfg.range)
  {
    forall m | m in Board(kind, values, cfg)
      ensures m.ticker in values && Candidate(kind, m.ticker, cfg.range) && m == ToMeta(kind, m.ticker, cfg.range)
    {
      var i := BoardEntry(kind, values, cfg, m);
      TopEntry(kind, values, cfg.range, i);
    }
  }

  /** Every candidate left off ranks no higher than every one shown. */
  lemma BoardLeftOffRanks(kind: BoardKind, values: seq<MTicker>, cfg: BoardConfig, t: MTicker, m: Meta)
    requires LeftOff(kind, values, cfg, t) && m in Board(kind, values, cfg)
    ensures RankOrder(kind, cfg.range)(m.ticker, t)
  {
    var ranked := Ranked(kind, values, cfg.range);
    var top := Top(kind, values, cfg.range);
    var i := BoardEntry(kind, values, cfg, m);
    TopEntry(kind, values, cfg.range, i);
    if t in top {
      TopShown(kind, values, cfg, t);
    }
    assert t in multiset(ranked);
    RankOrderIsTotalPreorder(kind, cfg.range);
    FirstOfSorted(ranked, 10, RankOrder(kind, cfg.range));
  }

  /** A board shows at most 10 candidates from the map, each with its
      board fields, in the display order; every candidate left off ranks no
      higher than every one shown. */
  lemma BoardShape(kind: BoardKind, values: seq<MTicker>, cfg: BoardConfig)
    ensures |Board(kind, values, cfg)| <= 10
    ensures forall m :: m in Board(kind, values, cfg) ==>
              m.ticker in values && Candidate(kind, m.ticker, cfg.range) && m == ToMeta(kind, m.ticker, cfg.range)
    ensures SortedBy(Board(kind, values, cfg), MetaOrder(cfg.sortBy, cfg.sortOrder))
    ensures forall t, m :: LeftOff(kind, values, cfg, t) && m in Board(kind, values, cfg) ==>
              RankOrder(kind, cfg.range)(m.ticker, t)
  {
    BoardMembers(kind, values, cfg);
    MetaOrderIsTotalPreorder(cfg.sortBy, cfg.sortOrder);
    forall t, m | LeftOff(kind, values, cfg, t) && m in Board(kind, values, cfg)
      ensures RankOrder(kind, cfg.range)(m.ticker, t)
    {
      BoardLeftOffRanks(kind, values, cfg, t, m);
    }
  }

  /** The board comparisons spelled out: a candidate left off the gainers
      gained no more than any shown gainer, one left off the losers lost no
      more than any shown loser, and one left off the volume board grew its
      volume no more than any shown ticker. */
  lemma BoardsRank(values: seq<MTicker>, cfg: BoardConfig, t: MTicker)
    ensures LeftOff(Gainers, values, cfg, t) ==>
              forall m :: m in Board(Gainers, values, cfg) ==>
                KeyOf(PriceChange(t, cfg.range)) <= KeyOf(PriceChange(m.ticker, cfg.range))
    ensures LeftOff(Losers, values, cfg, t) ==>
              forall m :: m in Board(Losers, values, cfg) ==>
                KeyOf(PriceChange(t, cfg.range)) >= KeyOf(PriceChange(m.ticker, cfg.range))
    ensures LeftOff(ByVolume, values, cfg, t) ==>
              forall m :: m in Board(ByVolume, values, cfg) ==>
                KeyOf(VolumeChange(t, cfg.range)) <= KeyOf(VolumeChange(m.ticker, cfg.range))
  {
    BoardShape(Gainers, values, cfg);
    forall m | LeftOff(Gainers, values, cfg, t) && m in Board(Gainers, values, cfg)
      ensures KeyOf(PriceChange(t, cfg.range)) <= KeyOf(PriceChange(m.ticker, cfg.range))
    {
      assert RankOrder(Gainers, cfg.range)(m.ticker, t);
    }
    BoardShape(Losers, values, cfg);
    forall m | LeftOff(Losers, values, cfg, t) && m in Board(Losers, values, cfg)
      ensures KeyOf(PriceChange(t, cfg.range)) >= KeyOf(PriceChange(m.ticker, cfg.range))
    {
      assert RankOrder(Losers, cfg.range)(m.ticker, t);
    }
    BoardShape(ByVolume, values, cfg);
    forall m | LeftOff(ByVolume, values, cfg, t) && m in Board(ByVolume, values, cfg)
      ensures KeyOf(VolumeChange(t, cfg.range)) <= KeyOf(VolumeChange(m.ticker, cfg.range))
    {
      assert RankOrder(ByVolume, cfg.range)(m.ticker, t);
    }
  }

  // ----- alerts -----

  datatype AlertKind = Drop | Gain | Volume

  /** An alert: its type, symbol, the update time it fired at and its
      cool-down window in milliseconds. */
  datatype Alert = Alert(kind: AlertKind, symbol: string, timestamp: int, window: int)

  /** One alert rule's settings. `minPrice` is the configured value after
      `+` coercion, `None` standing for NaN. */
  datatype AlertConfig = AlertConfig(enabled: bool, window: string, percent: real,
                                     minVolume24: real, minPrice: Option<real>)

  function Abs(x: real): real {
    if x < 0.0 then -x else x
  }

  predicate PriceFloorPasses(t: MTicker, c: AlertConfig) {
    !(c.minPrice.Some? && t.close < c.minPrice.value)
  }

  /** `checkDropAlert`'s early returns. */
  function DropFires(t: MTicker, c: AlertConfig): (fires: bool)
    ensures PriceChange(t, c.window).Some? ==>
              (fires <==> PriceFloorPasses(t, c) && PriceChange(t, c.window).value < 0.0 &&
                          -PriceChange(t, c.window).value >= c.percent && t.volume >= c.minVolume24)
    ensures PriceChange(t, c.window).None? ==>
              (fires <==> PriceFloorPasses(t, c) && t.volume >= c.minVolume24)
  {
    var change := PriceChange(t, c.window);
    if c.minPrice.Some? && t.close < c.minPrice.value then false
    else if change.Some? && change.value >= 0.0 then false
    else if change.Some? && Abs(change.value) < c.percent then false
    else if t.volume < c.minVolume24 then false
    else true
  }

  /** `checkGainAlert`'s early returns. */
  function GainFires(t: MTicker, c: AlertConfig): (fires: bool)
    ensures PriceChange(t, c.window).Some? ==>
              (fires <==> PriceFloorPasses(t, c) && PriceChange(t, c.window).value > 0.0 &&
                          PriceChange(t, c.window).value >= c.percent && t.volume >= c.minVolume24)
    ensures PriceChange(t, c.window).None? ==>
              (fires <==> PriceFloorPasses(t, c) && t.volume >= c.minVolume24)
  {
    var change := PriceChange(t, c.window);
    if c.minPrice.Some? && t.close < c.minPrice.value then false
    else if change.Some? && change.value <= 0.0 then false
    else if change.Some? && Abs(change.value) < c.percent then false
    else if t.volume < c.minVolume24 then false
    else true
  }

  /** `checkVolumeAlert`'s early returns. */
  function VolumeFires(t: MTicker, c: AlertConfig): (fires: bool)
    ensures fires <==> PriceFloorPasses(t, c) && t.volume >= c.minVolume24 &&
                       !(VolumeChange(t, c.window).Some? && VolumeChange(t, c.window).value < c.percent)
  {
    if c.minPrice.Some? && t.close < c.minPrice.value then false
    else if t.volume < c.minVolume24 then false
    else if VolumeChange(t, c.window).Some? && VolumeChange(t, c.window).value < c.percent then false
    else true
  }

  /** With the same settings, no known price change fires both a drop and a
      gain alert. */
  lemma DropAndGainExclusive(t: MTicker, c: AlertConfig)
    requires PriceChange(t, c.window).Some?
    ensures !(DropFires(t, c) && GainFires(t, c))
  {
  }

  /** An hour, in milliseconds. */
  const ExpireMs: int := 60 * 60 * 1000

  predicate Stale(a: Alert, now: int) {
    now - a.timestamp > ExpireMs
  }

  /** The feed after expiry: stale alerts are dropped from the tail while
      more than one remains. */
  function Expire(feed: seq<Alert>, now: int): seq<Alert>
    decreases |feed|
  {
    if |feed| > 1 && Stale(feed[|feed| - 1], now) then Expire(feed[..|feed| - 1], now) else feed
  }

  /** Expiry keeps a non-empty prefix of a non-empty feed, drops only stale
      alerts, and stops at the first fresh one from the tail. */
  lemma {:induction false} ExpireShape(feed: seq<Alert>, now: int)
    requires feed != []
    ensures var r := Expire(feed, now);
            1 <= |r| <= |feed| && r == feed[..|r|] &&
            (forall j :: |r| <= j < |feed| ==> Stale(feed[j], now)) &&
            (|r| == 1 || !Stale(r[|r| - 1], now))
    decreases |feed|
  {
    if |feed| > 1 && Stale(feed[|feed| - 1], now) {
      var init := feed[..|feed| - 1];
      ExpireShape(init, now);
      var r := Expire(init, now);
      assert r == feed[..|r|];
    }
  }

  /** The cool-down key. */
  function KeyOfAlert(a: Alert): (AlertKind, string) {
    (a.kind, a.symbol)
  }

  /** A candidate is suppressed when an alert of its type and symbol fired
      less than its window before the current update time. */
  predicate Suppressed(lastAlerts: map<(AlertKind, string), Alert>, a: Alert, updateTime: int) {
    KeyOfAlert(a) in lastAlerts && updateTime - lastAlerts[KeyOfAlert(a)].timestamp < a.window
  }

  /** The alert state: last fired alert per (type, symbol), the feed, and
      whether anything fired during this render. */
  datatype AlertState = AlertState(lastAlerts: map<(AlertKind, string), Alert>, feed: seq<Alert>, fired: bool)

  /** `addAlert`'s effect. */
  function AddAlertEffect(st: AlertState, a: Alert, updateTime: int, now: int): AlertState {
    if Suppressed(st.lastAlerts, a, updateTime) then st
    else AlertState(st.lastAlerts[KeyOfAlert(a) := a], Expire([a] + st.feed, now), true)
  }

  /** A suppressed candidate does not restart the cool-down: a candidate
      at exactly the window after the last fired alert fires, whatever was
      suppressed in between, and it heads the feed. */
  lemma CoolDownNotReset(st: AlertState, prev: Alert, a1: Alert, a2: Alert, t1: int, t2: int, now1: int, now2: int)
    requires KeyOfAlert(prev) in st.lastAlerts && st.lastAlerts[KeyOfAlert(prev)] == prev
    requires KeyOfAlert(a1) == KeyOfAlert(prev) && KeyOfAlert(a2) == KeyOfAlert(prev)
    requires t1 - prev.timestamp < a1.window
    requires t2 - prev.timestamp == a2.window
    ensures AddAlertEffect(st, a1, t1, now1) == st
    ensures var st2 := AddAlertEffect(AddAlertEffect(st, a1, t1, now1), a2, t2, now2);
            st2.fired && st2.feed != [] && st2.feed[0] == a2 && st2.lastAlerts[KeyOfAlert(a2)] == a2
  {
    ExpireShape([a2] + st.feed, now2);
  }

  datatype MonitorConfig = MonitorConfig(
    baseCoin: string, blacklist: string,
    drop: AlertConfig, gain: AlertConfig, volume: AlertConfig,
    gainers: BoardConfig, losers: BoardConfig, byVolume: BoardConfig)

  const DefaultConfig: MonitorConfig :=
    MonitorConfig("BTC", "",
      AlertConfig(true, "15m", 3.0, 150.0, Some(0.0)),
      AlertConfig(true, "15m", 3.0, 150.0, Some(0.0)),
      AlertConfig(true, "15m", 7.0, 150.0, Some(0.0)),
      BoardConfig("desc", "priceChangePercent", "15m"),
      BoardConfig("asc", "priceChangePercent", "15m"),
      BoardConfig("desc", "volumeChangePercent", "15m"))

  /** The change a rule reads: the price change for drops and gains, the
      volume change for volume jumps; `None` when the update has no entry
      for the rule's window. */
  function RuleChange(kind: AlertKind, t: MTicker, window: string): Option<real> {
    if kind == Volume then VolumeChange(t, window) else PriceChange(t, window)
  }

  /** The alert checks so far: the alert state reached, and whether
      building a candidate threw the TypeError that ends the render. */
  datatype Checked = Checked(st: AlertState, threw: bool)

  /** A rule that fired builds its candidate. Formatting a missing change
      with `toFixed` throws, and so does converting a window that does not
      parse; either way nothing is recorded. Otherwise the alert is added. */
  function Fire(st: AlertState, kind: AlertKind, c: AlertConfig, t: MTicker, updateTime: int, now: int): (r: Checked)
    ensures r.threw <==> RuleChange(kind, t, c.window).None? || IntervalStringToMillis(c.window).Err?
    ensures r.threw ==> r.st == st
    ensures !r.threw ==>
              r.st == AddAlertEffect(st, Alert(kind, t.symbol, updateTime, IntervalStringToMillis(c.window).value), updateTime, now)
  {
    if RuleChange(kind, t, c.window).None? then Checked(st, true)
    else
      match IntervalStringToMillis(c.window)
      case Err(_) => Checked(st, true)
      case Ok(w) => Checked(AddAlertEffect(st, Alert(kind, t.symbol, updateTime, w), updateTime, now), false)
  }

  /** One check after the earlier ones: skipped after a throw or when the
      rule does not fire, otherwise the rule's alert is fired. */
  function CheckStep(c: Checked, fires: bool, kind: AlertKind, ac: AlertConfig, t: MTicker, updateTime: int, now: int): Checked {
    if c.threw || !fires then c else Fire(c.st, kind, ac, t, updateTime, now)
  }

  /** The three checks of one ticker, in order, up to the first throw. */
  function CheckTicker(st: AlertState, t: MTicker, cfg: MonitorConfig, updateTime: int, now: int): Checked {
    var c1 := CheckStep(Checked(st, false), cfg.drop.enabled && DropFires(t, cfg.drop), Drop, cfg.drop, t, updateTime, now);
    var c2 := CheckStep(c1, cfg.gain.enabled && GainFires(t, cfg.gain), Gain, cfg.gain, t, updateTime, now);
    CheckStep(c2, cfg.volume.enabled && VolumeFires(t, cfg.volume), Volume, cfg.volume, t, updateTime, now)
  }

  /** The checks of every ticker in order; a throw ends them. */
  function CheckAll(st: AlertState, ts: seq<MTicker>, cfg: MonitorConfig, updateTime: int, now: int): Checked
    decreases |ts|
  {
    if ts == [] then Checked(st, false)
    else
      var n := |ts| - 1;
      var c := CheckAll(st, ts[..n], cfg, updateTime, now);
      if c.threw then c else CheckTicker(c.st, ts[n], cfg, updateTime, now)
  }

  /** From `st` to `r` no cool-down was forgotten, every new or replaced
      one was recorded at `updateTime` and raised the new-alert flag, the
      flag was never lowered, and without the flag nothing changed. */
  ghost predicate Grows(st: AlertState, r: AlertState, updateTime: int) {
    && (forall k :: k in st.lastAlerts ==> k in r.lastAlerts)
    && (forall k :: k in r.lastAlerts && (k !in st.lastAlerts || r.lastAlerts[k] != st.lastAlerts[k]) ==>
          r.lastAlerts[k].timestamp == updateTime && r.fired)
    && (st.fired ==> r.fired)
    && (!r.fired ==> r == st)
  }

  lemma GrowsTransitive(a: AlertState, b: AlertState, c: AlertState, updateTime: int)
    requires Grows(a, b, updateTime) && Grows(b, c, updateTime)
    ensures Grows(a, c, updateTime)
  {
    forall k | k in c.lastAlerts && (k !in a.lastAlerts || c.lastAlerts[k] != a.lastAlerts[k])
      ensures c.lastAlerts[k].timestamp == updateTime && c.fired
    {
      if k in b.lastAlerts && c.lastAlerts[k] == b.lastAlerts[k] {
        assert b.lastAlerts[k].timestamp == updateTime && b.fired;
      }
    }
  }

  lemma CheckStepGrows(c: Checked, fires: bool, kind: AlertKind, ac: AlertConfig, t: MTicker, updateTime: int, now: int)
    ensures Grows(c.st, CheckStep(c, fires, kind, ac, t, updateTime, now).st, updateTime)
  {
  }

  lemma CheckTickerGrows(st: AlertState, t: MTicker, cfg: MonitorConfig, updateTime: int, now: int)
    ensures Grows(st, CheckTicker(st, t, cfg, updateTime, now).st, updateTime)
  {
    var c1 := CheckStep(Checked(st, false), cfg.drop.enabled && DropFires(t, cfg.drop), Drop, cfg.drop, t, updateTime, now);
    var c2 := CheckStep(c1, cfg.gain.enabled && GainFires(t, cfg.gain), Gain, cfg.gain, t, updateTime, now);
    var c3 := CheckStep(c2, cfg.volume.enabled && VolumeFires(t, cfg.volume), Volume, cfg.volume, t, updateTime, now);
    CheckStepGrows(Checked(st, false), cfg.drop.enabled && DropFires(t, cfg.drop), Drop, cfg.drop, t, updateTime, now);
    CheckStepGrows(c1, cfg.gain.enabled && GainFires(t, cfg.gain), Gain, cfg.gain, t, updateTime, now);
    CheckStepGrows(c2, cfg.volume.enabled && VolumeFires(t, cfg.volume), Volume, cfg.volume, t, updateTime, now);
    GrowsTransitive(st, c1.st, c2.st, updateTime);
    GrowsTransitive(st, c2.st, c3.st, updateTime);
  }

  /** Checking never shrinks the cool-down record, every alert it records
      is one that fired at this update time, and with every rule disabled
      it changes nothing. */
  lemma CheckAllEffect(st: AlertState, ts: seq<MTicker>, cfg: MonitorConfig, updateTime: int, now: int)
    ensures var r := CheckAll(st, ts, cfg, updateTime, now).st;
            (forall k :: k in st.lastAlerts ==> k in r.lastAlerts) &&
            (forall k :: k in r.lastAlerts && (k !in st.lastAlerts || r.lastAlerts[k] != st.lastAlerts[k]) ==>
               r.lastAlerts[k].timestamp == updateTime && r.fired)
    ensures !cfg.drop.enabled && !cfg.gain.enabled && !cfg.volume.enabled ==>
              CheckAll(st, ts, cfg, updateTime, now) == Checked(st, false)
    ensures !CheckAll(st, ts, cfg, updateTime, now).st.fired ==> CheckAll(st, ts, cfg, updateTime, now).st == st
  {
    CheckAllGrows(st, ts, cfg, updateTime, now);
    if !cfg.drop.enabled && !cfg.gain.enabled && !cfg.volume.enabled {
      CheckAllDisabled(st, ts, cfg, updateTime, now);
    }
  }

  lemma {:induction false} CheckAllGrows(st: AlertState, ts: seq<MTicker>, cfg: MonitorConfig, updateTime: int, now: int)
    ensures Grows(st, CheckAll(st, ts, cfg, updateTime, now).st, updateTime)
    decreases |ts|
  {
    if ts != [] {
      var n := |ts| - 1;
      var c := CheckAll(st, ts[..n], cfg, updateTime, now);
      CheckAllGrows(st, ts[..n], cfg, updateTime, now);
      if !c.threw {
        CheckTickerGrows(c.st, ts[n], cfg, updateTime, now);
        GrowsTransitive(st, c.st, CheckTicker(c.st, ts[n], cfg, updateTime, now).st, updateTime);
      }
    }
  }

  lemma {:induction false} CheckAllDisabled(st: AlertState, ts: seq<MTicker>, cfg: MonitorConfig, updateTime: int, now: int)
    requires !cfg.drop.enabled && !cfg.gain.enabled && !cfg.volume.enabled
    ensures CheckAll(st, ts, cfg, updateTime, now) == Checked(st, false)
    decreases |ts|
  {
    if ts != [] {
      CheckAllDisabled(st, ts[..|ts| - 1], cfg, updateTime, now);
    }
  }

  /** Whether a rule that fires throws: its change is missing or its
      window does not parse. */
  predicate RuleThrows(fires: bool, kind: AlertKind, c: AlertConfig, t: MTicker) {
    fires && (RuleChange(kind, t, c.window).None? || IntervalStringToMillis(c.window).Err?)
  }

  /** Whether checking a ticker throws: one of its enabled rules fires and
      throws. */
  predicate TickerThrows(t: MTicker, cfg: MonitorConfig) {
    || RuleThrows(cfg.drop.enabled && DropFires(t, cfg.drop), Drop, cfg.drop, t)
    || RuleThrows(cfg.gain.enabled && GainFires(t, cfg.gain), Gain, cfg.gain, t)
    || RuleThrows(cfg.volume.enabled && VolumeFires(t, cfg.volume), Volume, cfg.volume, t)
  }

  lemma CheckTickerThrows(st: AlertState, t: MTicker, cfg: MonitorConfig, updateTime: int, now: int)
    ensures CheckTicker(st, t, cfg, updateTime, now).threw <==> TickerThrows(t, cfg)
  {
  }

  /** The checks throw exactly when some ticker has an enabled rule that
      fires with a missing change or a window that does not parse. */
  lemma {:induction false} CheckAllThrows(st: AlertState, ts: seq<MTicker>, cfg: MonitorConfig, updateTime: int, now: int)
    ensures CheckAll(st, ts, cfg, updateTime, now).threw <==>
              exists i :: 0 <= i < |ts| && TickerThrows(ts[i], cfg)
    decreases |ts|
  {
    if ts != [] {
      var n := |ts| - 1;
      var c := CheckAll(st, ts[..n], cfg, updateTime, now);
      CheckAllThrows(st, ts[..n], cfg, updateTime, now);
      if c.threw {
        var i :| 0 <= i < n && TickerThrows(ts[..n][i], cfg);
        assert ts[..n][i] == ts[i];
      } else {
        CheckTickerThrows(c.st, ts[n], cfg, updateTime, now);
        if exists i :: 0 <= i < |ts| && TickerThrows(ts[i], cfg) {
          var i :| 0 <= i < |ts| && TickerThrows(ts[i], cfg);
          if i < n {
            assert ts[..n][i] == ts[i];
          }
        }
      }
    }
  }

  /** An enabled drop rule on a window the server does not send: a ticker
      that passes the price floor and the volume minimum fires it, and
      formatting the missing change throws. */
  lemma MissingChangeThrows(st: AlertState, updateTime: int, now: int)
    ensures var cfg := DefaultConfig.(drop := AlertConfig(true, "2m", 3.0, 150.0, Some(0.0)));
            var t := MTicker("XRPBTC", 1.0, 200.0, map["15m" := -5.0], map[]);
            CheckAll(st, [t], cfg, updateTime, now) == Checked(st, true)
  {
    var cfg := DefaultConfig.(drop := AlertConfig(true, "2m", 3.0, 150.0, Some(0.0)));
    var t := MTicker("XRPBTC", 1.0, 200.0, map["15m" := -5.0], map[]);
    assert PriceChange(t, "2m") == None;
    assert DropFires(t, cfg.drop);
    assert [t][..0] == [];
  }

  /** Once a prefix of the tickers threw, the remaining ones are never
      checked. */
  lemma {:induction false} ThrowSticks(st: AlertState, ts: seq<MTicker>, k: nat, cfg: MonitorConfig, updateTime: int, now: int)
    requires k <= |ts| && CheckAll(st, ts[..k], cfg, updateTime, now).threw
    ensures CheckAll(st, ts, cfg, updateTime, now) == CheckAll(st, ts[..k], cfg, updateTime, now)
    decreases |ts| - k
  {
    if k < |ts| {
      assert ts[..k + 1][..k] == ts[..k];
      ThrowSticks(st, ts, k + 1, cfg, updateTime, now);
    } else {
      assert ts[..k] == ts;
    }
  }

  /** `splice(index, 1)`: a negative index counts from the end; an index
      past the end removes nothing. */
  function RemoveAt(s: seq<Alert>, index: int): (r: seq<Alert>)
    ensures 0 <= index < |s| ==> r == s[..index] + s[index + 1..]
    ensures index >= |s| ==> r == s
    ensures |r| == |s| - 1 || r == s
  {
    var start := if index >= 0 then index else if |s| + index > 0 then |s| + index else 0;
    if start < |s| then s[..start] + s[start + 1..] else s
  }

  class MonitorComponent {
    var config: MonitorConfig
    var tickerMap: Dict<MTicker>
    var pairCount: nat
    var gainers: seq<Meta>
    var losers: seq<Meta>
    var byVolume: seq<Meta>
    var alertArray: seq<Alert>
    var lastAlerts: map<(AlertKind, string), Alert>
    var newAlerts: bool
    /** The time the latest update arrived. */
    var lastUpdateTime: int
    /** The time the latest non-empty update arrived. */
    var lastUpdate: int

    ghost predicate Valid()
      reads this
    {
      KeyedBySymbol(tickerMap)
    }

    function Alerts(): AlertState
      reads this
    {
      AlertState(lastAlerts, alertArray, newAlerts)
    }

    constructor ()
      ensures Valid()
      ensures config == DefaultConfig && tickerMap.entries == map[]
      ensures gainers == [] && losers == [] && byVolume == [] && alertArray == [] && lastAlerts == map[]
      ensures !newAlerts && pairCount == 0 && lastUpdate == 0
    {
      config := DefaultConfig;
      tickerMap := EmptyDict();
      pairCount := 0;
      gainers := [];
      losers := [];
      byVolume := [];
      alertArray := [];
      lastAlerts := map[];
      newAlerts := false;
      lastUpdateTime := 0;
      lastUpdate := 0;
    }

    /** Records a candidate unless its cool-down holds it back, puts it
        first in the feed and expires the feed's stale tail. `now` is the
        clock. */
    method AddAlert(alert: Alert, now: int)
      modifies this
      ensures Alerts() == AddAlertEffect(old(Alerts()), alert, lastUpdateTime, now)
      ensures config == old(config) && tickerMap == old(tickerMap) && lastUpdateTime == old(lastUpdateTime)
      ensures gainers == old(gainers) && losers == old(losers) && byVolume == old(byVolume)
      ensures pairCount == old(pairCount) && lastUpdate == old(lastUpdate)
    {
      var key := KeyOfAlert(alert);
      if key in lastAlerts {
        var ageMs := lastUpdateTime - lastAlerts[key].timestamp;
        if ageMs < alert.window {
          return;
        }
      }
      lastAlerts := lastAlerts[key := alert];
      alertArray := [alert] + alertArray;
      var feed := alertArray;
      ghost var full := feed;
      while |feed| > 1 && now - feed[|feed| - 1].timestamp > ExpireMs
        invariant Expire(feed, now) == Expire(full, now)
        decreases |feed|
      {
        feed := feed[..|feed| - 1];
      }
      alertArray := feed;
      newAlerts := true;
    }

    method RemoveAlert(index: int)
      modifies this
      ensures alertArray == RemoveAt(old(alertArray), index)
      ensures lastAlerts == old(lastAlerts) && newAlerts == old(newAlerts)
    {
      var start := if index >= 0 then index else if |alertArray| + index > 0 then |alertArray| + index else 0;
      if start < |alertArray| {
        alertArray := alertArray[..start] + alertArray[start + 1..];
      }
    }

    /** Empties the feed; the cool-downs stay. */
    method ClearAlerts()
      modifies this
      ensures alertArray == [] && lastAlerts == old(lastAlerts)
    {
      alertArray := [];
    }

    /** A rule that fired: the candidate alert is built, formatting the
        change and converting the window, either of which throws, and then
        added. */
    method FireAlert(kind: AlertKind, c: AlertConfig, t: MTicker, now: int) returns (threw: bool)
      modifies this
      ensures Checked(Alerts(), threw) == Fire(old(Alerts()), kind, c, t, lastUpdateTime, now)
      ensures config == old(config) && tickerMap == old(tickerMap) && lastUpdateTime == old(lastUpdateTime)
      ensures gainers == old(gainers) && losers == old(losers) && byVolume == old(byVolume)
      ensures pairCount == old(pairCount) && lastUpdate == old(lastUpdate)
    {
      if RuleChange(kind, t, c.window).None? {
        return true;
      }
      var window := IntervalStringToMillis(c.window);
      if window.Err? {
        return true;
      }
      AddAlert(Alert(kind, t.symbol, lastUpdateTime, window.value), now);
      return false;
    }

    method CheckTickerAlerts(t: MTicker, now: int) returns (threw: bool)
      modifies this
      ensures config == old(config) && tickerMap == old(tickerMap) && lastUpdateTime == old(lastUpdateTime)
      ensures Checked(Alerts(), threw) == CheckTicker(old(Alerts()), t, config, lastUpdateTime, now)
      ensures gainers == old(gainers) && losers == old(losers) && byVolume == old(byVolume)
      ensures pairCount == old(pairCount) && lastUpdate == old(lastUpdate)
    {
      threw := false;
      if config.drop.enabled && DropFires(t, config.drop) {
        threw := FireAlert(Drop, config.drop, t, now);
        if threw {
          return;
        }
      }
      if config.gain.enabled && GainFires(t, config.gain) {
        threw := FireAlert(Gain, config.gain, t, now);
        if threw {
          return;
        }
      }
      if config.volume.enabled && VolumeFires(t, config.volume) {
        threw := FireAlert(Volume, config.volume, t, now);
      }
    }

    /** Runs the enabled checks over every ticker of the map, in key order,
        until one throws. */
    method UpdateAlerts(now: int) returns (threw: bool)
      modifies this
      requires Valid()
      ensures config == old(config) && tickerMap == old(tickerMap) && lastUpdateTime == old(lastUpdateTime)
      ensures Valid()
      ensures Checked(Alerts(), threw) == CheckAll(old(Alerts()), tickerMap.Values(), config, lastUpdateTime, now)
      ensures gainers == old(gainers) && losers == old(losers) && byVolume == old(byVolume)
      ensures pairCount == old(pairCount) && lastUpdate == old(lastUpdate)
    {
      var values := tickerMap.Values();
      ghost var pre := Alerts();
      if !(config.drop.enabled || config.gain.enabled || config.volume.enabled) {
        CheckAllDisabled(pre, values, config, lastUpdateTime, now);
        return false;
      }
      for i := 0 to |values|
        invariant config == old(config) && tickerMap == old(tickerMap) && lastUpdateTime == old(lastUpdateTime)
        invariant Checked(Alerts(), false) == CheckAll(pre, values[..i], config, lastUpdateTime, now)
        invariant gainers == old(gainers) && losers == old(losers) && byVolume == old(byVolume)
        invariant pairCount == old(pairCount) && lastUpdate == old(lastUpdate)
      {
        ghost var before := Alerts();
        assert values[..i + 1][..i] == values[..i];
        assert CheckAll(pre, values[..i + 1], config, lastUpdateTime, now) ==
               CheckTicker(before, values[i], config, lastUpdateTime, now);
        threw := CheckTickerAlerts(values[i], now);
        if threw {
          ThrowSticks(pre, values, i + 1, config, lastUpdateTime, now);
          return;
        }
      }
      assert values[..|values|] == values;
      return false;
    }

    method UpdateGainers()
      modifies this
      requires Valid()
      ensures config == old(config) && tickerMap == old(tickerMap) && Alerts() == old(Alerts())
      ensures gainers == Board(Gainers, tickerMap.Values(), config.gainers)
      ensures losers == old(losers) && byVolume == old(byVolume)
      ensures pairCount == old(pairCount) && lastUpdate == old(lastUpdate) && lastUpdateTime == old(lastUpdateTime)
    {
      gainers := Board(Gainers, tickerMap.Values(), config.gainers);
    }

    method UpdateLosers()
      modifies this
      requires Valid()
      ensures config == old(config) && tickerMap == old(tickerMap) && Alerts() == old(Alerts())
      ensures losers == Board(Losers, tickerMap.Values(), config.losers)
      ensures gainers == old(gainers) && byVolume == old(byVolume)
      ensures pairCount == old(pairCount) && lastUpdate == old(lastUpdate) && lastUpdateTime == old(lastUpdateTime)
    {
      losers := Board(Losers, tickerMap.Values(), config.losers);
    }

    method UpdateTopByVolume()
      modifies this
      requires Valid()
      ensures config == old(config) && tickerMap == old(tickerMap) && Alerts() == old(Alerts())
      ensures byVolume == Board(ByVolume, tickerMap.Values(), config.byVolume)
      ensures gainers == old(gainers) && losers == old(losers)
      ensures pairCount == old(pairCount) && lastUpdate == old(lastUpdate) && lastUpdateTime == old(lastUpdateTime)
    {
      byVolume := Board(ByVolume, tickerMap.Values(), config.byVolume);
    }

    /** The gainers, the losers, then the alerts. */
    method Render(now: int) returns (threw: bool)
      modifies this
      requires Valid()
      ensures config == old(config) && tickerMap == old(tickerMap) && lastUpdateTime == old(lastUpdateTime)
      ensures Valid()
      ensures gainers == Board(Gainers, tickerMap.Values(), config.gainers)
      ensures losers == Board(Losers, tickerMap.Values(), config.losers)
      ensures byVolume == old(byVolume)
      ensures Checked(Alerts(), threw) ==
                CheckAll(old(Alerts()).(fired := false), tickerMap.Values(), config, lastUpdateTime, now)
      ensures pairCount == old(pairCount) && lastUpdate == old(lastUpdate)
    {
      newAlerts := false;
      UpdateGainers();
      UpdateLosers();
      threw := UpdateAlerts(now);
    }

    /** A null update (the connect signal) only stamps the time. Otherwise
        each incoming ticker of the base coin is stored, or deleted when
        blacklisted, and the boards and alerts are refreshed; `threw` says
        that an alert check threw and ended the update. */
    method OnUpdate(update: Option<seq<MTicker>>, now: int) returns (threw: bool)
      modifies this
      requires Valid()
      ensures lastUpdateTime == now && config == old(config)
      ensures Valid()
      ensures update.None? ==>
                !threw && tickerMap == old(tickerMap) && Alerts() == old(Alerts()) && lastUpdate == old(lastUpdate) &&
                gainers == old(gainers) && losers == old(losers) && byVolume == old(byVolume)
      ensures update.Some? ==>
                tickerMap == MergeAll(old(tickerMap), update.value, config.baseCoin, config.blacklist) &&
                pairCount == |tickerMap.keys| && lastUpdate == now
      ensures update.Some? ==>
                byVolume == Board(ByVolume, tickerMap.Values(), config.byVolume) &&
                gainers == Board(Gainers, tickerMap.Values(), config.gainers) &&
                losers == Board(Losers, tickerMap.Values(), config.losers)
      ensures update.Some? ==>
                Checked(Alerts(), threw) == CheckAll(old(Alerts()).(fired := false), tickerMap.Values(), config, now, now)
    {
      lastUpdateTime := now;
      if update.None? {
        return false;
      }
      threw := Refresh(update.value, now);
    }

    /** The update of `onUpdate` once the tickers have arrived. */
    method Refresh(incoming: seq<MTicker>, now: int) returns (threw: bool)
      modifies this
      requires Valid() && lastUpdateTime == now
      ensures lastUpdateTime == now && config == old(config)
      ensures Valid()
      ensures tickerMap == MergeAll(old(tickerMap), incoming, config.baseCoin, config.blacklist) &&
              pairCount == |tickerMap.keys| && lastUpdate == now
      ensures byVolume == Board(ByVolume, tickerMap.Values(), config.byVolume) &&
              gainers == Board(Gainers, tickerMap.Values(), config.gainers) &&
              losers == Board(Losers, tickerMap.Values(), config.losers)
      ensures Checked(Alerts(), threw) == CheckAll(old(Alerts()).(fired := false), tickerMap.Values(), config, now, now)
    {
      ghost var pre := AlertState(lastAlerts, alertArray, false);
      lastUpdate := now;
      MergeKeeps(tickerMap, incoming, config.baseCoin, config.blacklist);
      var merged := MergeTickers(tickerMap, incoming, config.baseCoin, config.blacklist);
      tickerMap := merged;
      pairCount := |tickerMap.keys|;
      ghost var values := tickerMap.Values();
      UpdateTopByVolume();
      assert Alerts().(fired := false) == pre;
      threw := Render(now);
      assert Checked(Alerts(), threw) == CheckAll(pre, values, config, now, now);
    }

    /** A click on a board column: the current column flips the order,
        another column becomes the sort column, and the page is rendered;
        an unknown board does nothing. */
    method SortBy(what: string, field: string, now: int) returns (threw: bool)
      modifies this
      requires Valid()
      ensures Valid()
      ensures what != "losers" && what != "gainers" && what != "volume" ==>
                !threw && config == old(config) && gainers == old(gainers) && losers == old(losers) &&
                Alerts() == old(Alerts())
      ensures what == "gainers" ==> config == old(config).(gainers := Resorted(old(config).gainers, field))
      ensures what == "losers" ==> config == old(config).(losers := Resorted(old(config).losers, field))
      ensures what == "volume" ==> config == old(config).(byVolume := Resorted(old(config).byVolume, field))
      ensures what == "losers" || what == "gainers" || what == "volume" ==>
                gainers == Board(Gainers, tickerMap.Values(), config.gainers) &&
                losers == Board(Losers, tickerMap.Values(), config.losers) &&
                Checked(Alerts(), threw) ==
                  CheckAll(old(Alerts()).(fired := false), tickerMap.Values(), config, lastUpdateTime, now)
      ensures tickerMap == old(tickerMap) && byVolume == old(byVolume)
    {
      if what == "losers" {
        config := config.(losers := Resorted(config.losers, field));
      } else if what == "gainers" {
        config := config.(gainers := Resorted(config.gainers, field));
      } else if what == "volume" {
        config := config.(byVolume := Resorted(config.byVolume, field));
      } else {
        return false;
      }
      threw := Render(now);
    }
  }

  /** `toggleSortOrder`. */
  function Toggled(order: string): (r: string)
    ensures r == "asc" || r == "desc"
    ensures order == "asc" <==> r == "desc"
  {
    if order == "asc" then "desc" else "asc"
  }

  /** A board's settings after a click on `field`. */
  function Resorted(c: BoardConfig, field: string): (r: BoardConfig)
    ensures r.range == c.range
    ensures c.sortBy == field ==> r.sortBy == field && r.sortOrder == Toggled(c.sortOrder)
    ensures c.sortBy != field ==> r.sortBy == field && r.sortOrder == c.sortOrder
  {
    if c.sortBy == field then c.(sortOrder := Toggled(c.sortOrder)) else c.(sortBy := field)
  }

  /** Clicking the same column twice restores an "asc" or "desc" order. */
  lemma ResortedTwice(c: BoardConfig, field: string)
    requires c.sortOrder == "asc" || c.sortOrder == "desc"
    ensures c.sortBy == field ==> Resorted(Resorted(c, field), field) == c
    ensures c.sortBy != field ==> Resorted(Resorted(c, field), field) == c.(sortBy := field, sortOrder := Toggled(c.sortOrder))
  {
  }
}
