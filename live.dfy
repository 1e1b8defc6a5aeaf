/** The live ticker table. Incoming tickers are merged into a map keyed by
    symbol; each render takes the map's tickers through a fixed pipeline:
    list, base and bound filters (plucking out the ticker of the hovered
    row), sort, "watching" symbols first, cut to `count`, re-insert the
    plucked ticker at the hovered row, and wrap every field as a
    `{value, background_color}` cell. */
module Live {
  import opened Wrappers
  import opened Text
  import opened Sorting
  import opened JsObject

  /** A ticker: its symbol and its numeric fields by name (`close`,
      `volume`, `rsi_60`, `price_change_pct_24h`, `bv_1`, `sv_1`, ...). */
  datatype Ticker = Ticker(symbol: string, numbers: map<string, real>)

  function Field(t: Ticker, name: string): Option<real> {
    if name in t.numbers then Some(t.numbers[name]) else None
  }

  /** The table settings. The four price/change bounds and the RSI bound are
      text from the form; the volume bounds are numbers or null. */
  datatype Config = Config(
    base: string, sortBy: string, sortOrder: string,
    maxPrice: Option<string>, minPrice: Option<string>,
    max24Change: Option<string>, min24Change: Option<string>,
    filter: Option<string>, count: int, watching: set<string>,
    maxRsi60: Option<string>, minVol24: Option<real>, maxVol24: Option<real>,
    blacklist: string, whitelist: string)

  const DefaultConfig: Config :=
    Config("BTC", "price_change_pct15", "desc", None, None, None, None, None, 25, {},
           None, None, None, "", "")

  datatype Value = Text(text: string) | Number(number: real)

  /** A wrapped field: `{value, background_color}`. */
  datatype Cell = Cell(value: Value, backgroundColor: string)

  type Row = map<string, Cell>

  /** `asNumber`: null and "" give null; other text is coerced with `+`,
      which `parse` stands for, its NaN being `None`. */
  function AsNumber(input: Option<string>, parse: string -> Option<real>): (r: Option<real>)
    ensures input == None || input == Some("") ==> r == None
    ensures r.Some? ==> input.Some? && input.value != "" && parse(input.value) == r
  {
    if input == None || input.value == "" then None else parse(input.value)
  }

  // ----- Blacklist and Whitelist -----

  /** The symbols a whitelist text admits: all of them when it names none. */
  predicate Whitelisted(text: string, item: string) {
    SplitEntries(text) == [] || Listed(SplitEntries(text), item)
  }

  class Blacklist {
    const entries: seq<string>

    constructor (text: string)
      ensures entries == SplitEntries(text)
    {
      entries := SplitEntries(text);
    }

    method Match(item: string) returns (found: bool)
      ensures found <==> Listed(entries, item)
    {
      for i := 0 to |entries|
        invariant forall j :: 0 <= j < i ==> !SameSymbol(entries[j], item)
      {
        if Lower(entries[i]) == Lower(item) {
          return true;
        }
      }
      return false;
    }
  }

  class Whitelist {
    const entries: seq<string>

    constructor (text: string)
      ensures entries == SplitEntries(text)
    {
      entries := SplitEntries(text);
    }

    method Match(item: string) returns (found: bool)
      ensures found <==> entries == [] || Listed(entries, item)
    {
      if |entries| == 0 {
        return true;
      }
      for i := 0 to |entries|
        invariant forall j :: 0 <= j < i ==> !SameSymbol(entries[j], item)
      {
        if Lower(entries[i]) == Lower(item) {
          return true;
        }
      }
      return false;
    }
  }

  lemma LowerOfUpper(s: string)
    ensures Lower(Upper(s)) == Lower(s)
  {
    assert forall i :: 0 <= i < |s| ==> LowerChar(UpperChar(s[i])) == LowerChar(s[i]);
  }

  /** List matching ignores case: a symbol is listed iff its upper-cased
      form is. An empty whitelist admits every symbol. */
  lemma ListMatchIgnoresCase(text: string, item: string)
    ensures Blacklisted(text, item) <==> Blacklisted(text, Upper(item))
    ensures Whitelisted(text, item) <==> Whitelisted(text, Upper(item))
    ensures Whitelisted("", item)
  {
    LowerOfUpper(item);
    assert SplitEntries("") == [];
  }

  // ----- the filter -----

  function Limit(bound: Option<real>): Option<real> {
    if bound.Some? && bound.value != 0.0 then bound else None
  }

  /** A set bound rejects a present field beyond it; a missing field is
      never beyond a bound, as comparisons with `undefined` are false. */
  predicate NotAbove(field: Option<real>, bound: Option<real>) {
    bound.Some? && field.Some? ==> field.value <= bound.value
  }

  predicate NotBelow(field: Option<real>, bound: Option<real>) {
    bound.Some? && field.Some? ==> field.value >= bound.value
  }

  /** The blacklist, whitelist and base tests, which come before the pluck. */
  predicate PassesLists(t: Ticker, cfg: Config) {
    !Blacklisted(cfg.blacklist, t.symbol) && Whitelisted(cfg.whitelist, t.symbol) &&
    EndsWith(t.symbol, cfg.base)
  }

  /** The tests after the pluck. The 24h change bounds apply whenever they
      parse; the price, RSI and volume bounds only when non-zero, and the
      RSI bound passes a ticker whose RSI is missing or 0. */
  predicate WithinBounds(t: Ticker, cfg: Config, parse: string -> Option<real>) {
    && NotAbove(Field(t, "price_change_pct_24h"), AsNumber(cfg.max24Change, parse))
    && NotBelow(Field(t, "price_change_pct_24h"), AsNumber(cfg.min24Change, parse))
    && NotAbove(Field(t, "close"), Limit(AsNumber(cfg.maxPrice, parse)))
    && NotBelow(Field(t, "close"), Limit(AsNumber(cfg.minPrice, parse)))
    && (Field(t, "rsi_60").Some? && Field(t, "rsi_60").value != 0.0 ==>
          NotAbove(Field(t, "rsi_60"), Limit(AsNumber(cfg.maxRsi60, parse))))
    && NotAbove(Field(t, "volume"), Limit(cfg.maxVol24))
    && NotBelow(Field(t, "volume"), Limit(cfg.minVol24))
    && (cfg.filter.Some? && cfg.filter.value != "" ==> Contains(t.symbol, Upper(cfg.filter.value)))
  }

  datatype Filtered = Filtered(kept: seq<Ticker>, plucked: Option<Ticker>)

  /** The `filter` callback over all tickers: a ticker passing the list
      tests whose symbol equals the held symbol is taken out and remembered
      (the last such one wins); the others are kept iff they pass the
      bounds. */
  function FilterTickers(ts: seq<Ticker>, cfg: Config, parse: string -> Option<real>, held: Option<string>): Filtered
    decreases |ts|
  {
    if ts == [] then Filtered([], None)
    else
      var n := |ts| - 1;
      var prev := FilterTickers(ts[..n], cfg, parse, held);
      var t := ts[n];
      if !PassesLists(t, cfg) then prev
      else if held == Some(t.symbol) then Filtered(prev.kept, Some(t))
      else if !WithinBounds(t, cfg, parse) then prev
      else Filtered(prev.kept + [t], prev.plucked)
  }

  /** A ticker is kept iff it passes every test and is not the held one;
      the plucked ticker, if any, passes the list tests and is held, and
      none is plucked only when no ticker passing the list tests is held. */
  lemma FilterTickersSelects(ts: seq<Ticker>, cfg: Config, parse: string -> Option<real>, held: Option<string>)
    ensures forall t :: t in FilterTickers(ts, cfg, parse, held).kept <==>
              t in ts && PassesLists(t, cfg) && held != Some(t.symbol) && WithinBounds(t, cfg, parse)
    ensures FilterTickers(ts, cfg, parse, held).plucked.Some? ==>
              var p := FilterTickers(ts, cfg, parse, held).plucked.value;
              p in ts && PassesLists(p, cfg) && held == Some(p.symbol)
    ensures FilterTickers(ts, cfg, parse, held).plucked.None? ==>
              forall t :: t in ts && PassesLists(t, cfg) ==> held != Some(t.symbol)
  {
    FilterTickersKept(ts, cfg, parse, held);
    FilterTickersPlucked(ts, cfg, parse, held);
  }

  /** The kept tickers of `FilterTickers`. */
  lemma {:induction false} FilterTickersKept(ts: seq<Ticker>, cfg: Config, parse: string -> Option<real>, held: Option<string>)
    ensures forall t :: t in FilterTickers(ts, cfg, parse, held).kept <==>
              t in ts && PassesLists(t, cfg) && held != Some(t.symbol) && WithinBounds(t, cfg, parse)
    decreases |ts|
  {
    if ts != [] {
      var n := |ts| - 1;
      FilterTickersKept(ts[..n], cfg, parse, held);
      assert ts == ts[..n] + [ts[n]];
      assert forall t :: t in ts <==> t in ts[..n] || t == ts[n];
    }
  }

  /** The plucked ticker of `FilterTickers`. */
  lemma {:induction false} FilterTickersPlucked(ts: seq<Ticker>, cfg: Config, parse: string -> Option<real>, held: Option<string>)
    ensures FilterTickers(ts, cfg, parse, held).plucked.Some? ==>
              var p := FilterTickers(ts, cfg, parse, held).plucked.value;
              p in ts && PassesLists(p, cfg) && held == Some(p.symbol)
    ensures FilterTickers(ts, cfg, parse, held).plucked.None? ==>
              forall t :: t in ts && PassesLists(t, cfg) ==> held != Some(t.symbol)
    decreases |ts|
  {
    if ts != [] {
      var n := |ts| - 1;
      FilterTickersPlucked(ts[..n], cfg, parse, held);
      assert ts == ts[..n] + [ts[n]];
      assert forall t :: t in ts <==> t in ts[..n] || t == ts[n];
    }
  }

  // ----- sorting -----

  /** A missing sort field compares as 0. */
  function Key(t: Ticker, name: string): real {
    if name in t.numbers then t.numbers[name] else 0.0
  }

  /** `sortTickers` as the relation "may come first": by symbol (reversed
      for "desc"), or numerically by the sort field, ascending only for
      "asc". */
  function TickerOrder(sortBy: string, sortOrder: string): (Ticker, Ticker) -> bool {
    if sortBy == "symbol" then
      if sortOrder == "desc" then (a: Ticker, b: Ticker) => LexLe(b.symbol, a.symbol)
      else (a: Ticker, b: Ticker) => LexLe(a.symbol, b.symbol)
    else if sortOrder == "asc" then (a: Ticker, b: Ticker) => Key(a, sortBy) <= Key(b, sortBy)
    else (a: Ticker, b: Ticker) => Key(a, sortBy) >= Key(b, sortBy)
  }

  lemma TickerOrderIsTotalPreorder(sortBy: string, sortOrder: string)
    ensures TotalPreorder(TickerOrder(sortBy, sortOrder))
  {
    var le := TickerOrder(sortBy, sortOrder);
    if sortBy == "symbol" {
      forall a: Ticker, b: Ticker ensures le(a, b) || le(b, a) {
        LexLeTotal(a.symbol, b.symbol);
      }
      forall a: Ticker, b: Ticker, c: Ticker | le(a, b) && le(b, c) ensures le(a, c) {
        if sortOrder == "desc" {
          LexLeTransitive(c.symbol, b.symbol, a.symbol);
        } else {
          LexLeTransitive(a.symbol, b.symbol, c.symbol);
        }
      }
    }
  }

  /** Sorted tickers are a permutation of the input in the configured
      order. */
  lemma SortTickersOrders(ts: seq<Ticker>, sortBy: string, sortOrder: string)
    ensures multiset(Sort(ts, TickerOrder(sortBy, sortOrder))) == multiset(ts)
    ensures var r := Sort(ts, TickerOrder(sortBy, sortOrder));
            forall i, j :: 0 <= i < j < |r| ==>
              (sortBy == "symbol" && sortOrder == "desc" ==> LexLe(r[j].symbol, r[i].symbol)) &&
              (sortBy == "symbol" && sortOrder != "desc" ==> LexLe(r[i].symbol, r[j].symbol)) &&
              (sortBy != "symbol" && sortOrder == "asc" ==> Key(r[i], sortBy) <= Key(r[j], sortBy)) &&
              (sortBy != "symbol" && sortOrder != "asc" ==> Key(r[i], sortBy) >= Key(r[j], sortBy))
  {
    TickerOrderIsTotalPreorder(sortBy, sortOrder);
  }

  // ----- watching -----

  function Watched(s: seq<Ticker>, watching: set<string>): seq<Ticker>
    decreases |s|
  {
    if s == [] then []
    else
      var n := |s| - 1;
      Watched(s[..n], watching) + (if s[n].symbol in watching then [s[n]] else [])
  }

  function Unwatched(s: seq<Ticker>, watching: set<string>): seq<Ticker>
    decreases |s|
  {
    if s == [] then []
    else
      var n := |s| - 1;
      Unwatched(s[..n], watching) + (if s[n].symbol in watching then [] else [s[n]])
  }

  function Reverse<T>(s: seq<T>): (r: seq<T>)
    ensures |r| == |s|
    decreases |s|
  {
    if s == [] then [] else [s[|s| - 1]] + Reverse(s[..|s| - 1])
  }

  /** The order the watching pass produces: watched tickers first, in the
      reverse of their order, then the others in their order. */
  function WatchOrder(s: seq<Ticker>, watching: set<string>): seq<Ticker> {
    Reverse(Watched(s, watching)) + Unwatched(s, watching)
  }

  lemma {:induction false} ReversePermutes<T>(s: seq<T>)
    ensures multiset(Reverse(s)) == multiset(s)
    decreases |s|
  {
    if s != [] {
      ReversePermutes(s[..|s| - 1]);
      assert s == s[..|s| - 1] + [s[|s| - 1]];
    }
  }

  lemma {:induction false} WatchLength(s: seq<Ticker>, watching: set<string>)
    ensures |Watched(s, watching)| + |Unwatched(s, watching)| == |s|
    decreases |s|
  {
    if s != [] {
      WatchLength(s[..|s| - 1], watching);
    }
  }

  lemma {:induction false} WatchSplit(s: seq<Ticker>, watching: set<string>)
    ensures multiset(Watched(s, watching)) + multiset(Unwatched(s, watching)) == multiset(s)
    ensures forall t :: t in Watched(s, watching) ==> t.symbol in watching
    ensures forall t :: t in Unwatched(s, watching) ==> t.symbol !in watching
    decreases |s|
  {
    if s != [] {
      var n := |s| - 1;
      var p := s[..n];
      WatchSplit(p, watching);
      assert s == p + [s[n]];
      if s[n].symbol in watching {
        assert Watched(s, watching) == Watched(p, watching) + [s[n]];
        assert Unwatched(s, watching) == Unwatched(p, watching) + [];
      } else {
        assert Watched(s, watching) == Watched(p, watching) + [];
        assert Unwatched(s, watching) == Unwatched(p, watching) + [s[n]];
      }
    }
  }

  lemma ReverseIsWatched(w: seq<Ticker>, watching: set<string>)
    requires forall t :: t in w ==> t.symbol in watching
    ensures forall i :: 0 <= i < |w| ==> Reverse(w)[i].symbol in watching
  {
    ReversePermutes(w);
    forall i | 0 <= i < |w| ensures Reverse(w)[i].symbol in watching {
      assert Reverse(w)[i] in multiset(Reverse(w));
    }
  }

  /** The watching pass is a permutation that puts exactly the watched
      tickers first. */
  lemma WatchOrderShape(s: seq<Ticker>, watching: set<string>)
    ensures multiset(WatchOrder(s, watching)) == multiset(s)
    ensures var w := |Watched(s, watching)|;
            var r := WatchOrder(s, watching);
            (forall i :: 0 <= i < w ==> r[i].symbol in watching) &&
            (forall i :: w <= i < |r| ==> r[i].symbol !in watching)
  {
    WatchOrderPermutes(s, watching);
    WatchOrderFront(s, watching);
    WatchOrderBack(s, watching);
  }

  lemma WatchOrderPermutes(s: seq<Ticker>, watching: set<string>)
    ensures multiset(WatchOrder(s, watching)) == multiset(s)
  {
    var ws := Watched(s, watching);
    var us := Unwatched(s, watching);
    WatchSplit(s, watching);
    ReversePermutes(ws);
    assert multiset(Reverse(ws) + us) == multiset(Reverse(ws)) + multiset(us);
  }

  lemma WatchOrderFront(s: seq<Ticker>, watching: set<string>)
    ensures var r := WatchOrder(s, watching);
            forall i :: 0 <= i < |Watched(s, watching)| ==> r[i].symbol in watching
  {
    var ws := Watched(s, watching);
    var r := WatchOrder(s, watching);
    WatchSplit(s, watching);
    ReverseIsWatched(ws, watching);
    forall i | 0 <= i < |ws| ensures r[i].symbol in watching {
      assert r[i] == Reverse(ws)[i];
    }
  }

  lemma WatchOrderBack(s: seq<Ticker>, watching: set<string>)
    ensures var r := WatchOrder(s, watching);
            forall i :: |Watched(s, watching)| <= i < |r| ==> r[i].symbol !in watching
  {
    var ws := Watched(s, watching);
    var us := Unwatched(s, watching);
    var r := WatchOrder(s, watching);
    WatchSplit(s, watching);
    forall i | |ws| <= i < |r| ensures r[i].symbol !in watching {
      assert r[i] == us[i - |ws|];
      assert us[i - |ws|] in us;
    }
  }

  /** One more ticker: a watched one goes in front of the watched part, an
      unwatched one at the end of the rest. */
  lemma WatchStep(s: seq<Ticker>, watching: set<string>, i: nat)
    requires i < |s|
    ensures s[i].symbol in watching ==>
              Reverse(Watched(s[..i + 1], watching)) == [s[i]] + Reverse(Watched(s[..i], watching)) &&
              Unwatched(s[..i + 1], watching) == Unwatched(s[..i], watching)
    ensures s[i].symbol !in watching ==>
              Reverse(Watched(s[..i + 1], watching)) == Reverse(Watched(s[..i], watching)) &&
              Unwatched(s[..i + 1], watching) == Unwatched(s[..i], watching) + [s[i]]
  {
    var q := s[..i + 1];
    assert q[..i] == s[..i] && q[i] == s[i];
    var w := Watched(s[..i], watching);
    if s[i].symbol in watching {
      var w1 := w + [s[i]];
      assert Watched(q, watching) == w1;
      assert w1[..|w1| - 1] == w;
      assert Unwatched(q, watching) == Unwatched(s[..i], watching) + [];
    } else {
      assert Watched(q, watching) == w + [] == w;
      assert Unwatched(q, watching) == Unwatched(s[..i], watching) + [s[i]];
    }
  }

  /** The watching pass after its first `i` tickers. */
  function PartlyWatchOrdered(s: seq<Ticker>, watching: set<string>, i: nat): (r: seq<Ticker>)
    requires i <= |s|
    ensures |r| == |s|
  {
    WatchLength(s[..i], watching);
    Reverse(Watched(s[..i], watching)) + Unwatched(s[..i], watching) + s[i..]
  }

  /** Moving the next ticker to the front when it is watched, and leaving
      it otherwise, advances the watching pass by one. */
  lemma MoveStep(s: seq<Ticker>, watching: set<string>, i: nat)
    requires i < |s|
    ensures var r := PartlyWatchOrdered(s, watching, i);
            r[i] == s[i] &&
            PartlyWatchOrdered(s, watching, i + 1) ==
              if s[i].symbol in watching then [r[i]] + r[..i] + r[i + 1..] else r
  {
    WatchLength(s[..i], watching);
    WatchStep(s, watching, i);
    var r := PartlyWatchOrdered(s, watching, i);
    var front := Reverse(Watched(s[..i], watching));
    var rest := Unwatched(s[..i], watching);
    var tail := s[i + 1..];
    assert |front| + |rest| == i;
    assert s[i..] == [s[i]] + tail;
    assert r == front + rest + [s[i]] + tail;
    assert r[..i] == front + rest;
    assert r[i + 1..] == tail;
    if s[i].symbol in watching {
      assert [s[i]] + (front + rest) + tail == ([s[i]] + front) + rest + tail;
    } else {
      assert r == front + (rest + [s[i]]) + tail;
    }
  }

  /** The splice/unshift loop: each watched ticker, in sorted order, is
      moved to the front. */
  method MoveWatchedFirst(s: seq<Ticker>, watching: set<string>) returns (r: seq<Ticker>)
    ensures r == WatchOrder(s, watching)
  {
    r := s;
    assert r == PartlyWatchOrdered(s, watching, 0);
    for i := 0 to |s|
      invariant r == PartlyWatchOrdered(s, watching, i)
    {
      MoveStep(s, watching, i);
      if r[i].symbol in watching {
        r := [r[i]] + r[..i] + r[i + 1..];
      }
    }
    assert s[..|s|] == s;
  }

  // ----- cut, re-insert, wrap -----

  /** `slice(0, count)`; a negative count counts from the end. */
  function Take<T>(s: seq<T>, count: int): (r: seq<T>)
    ensures |r| <= |s| && r == s[..|r|]
    ensures count >= 0 ==> |r| == if count < |s| then count else |s|
  {
    var end := if count >= 0 then (if count < |s| then count else |s|)
               else (if |s| + count > 0 then |s| + count else 0);
    s[..end]
  }

  /** `splice(at, 0, x)`: an index past the end appends. */
  function InsertAt<T>(s: seq<T>, at: nat, x: T): (r: seq<T>)
    ensures |r| == |s| + 1
    ensures r[if at < |s| then at else |s|] == x
    ensures multiset(r) == multiset(s) + multiset{x}
  {
    var k := if at < |s| then at else |s|;
    assert s == s[..k] + s[k..];
    s[..k] + [x] + s[k..]
  }

  const VolumePairs: seq<(string, string)> :=
    [("bv_1", "sv_1"), ("bv_2", "sv_2"), ("bv_3", "sv_3"),
     ("bv_5", "sv_5"), ("bv_15", "sv_15"), ("bv_60", "sv_60")]

  /** The sell-volume field paired with a buy-volume field. */
  function PairedSell(key: string): Option<string> {
    if key == "bv_1" then Some("sv_1")
    else if key == "bv_2" then Some("sv_2")
    else if key == "bv_3" then Some("sv_3")
    else if key == "bv_5" then Some("sv_5")
    else if key == "bv_15" then Some("sv_15")
    else if key == "bv_60" then Some("sv_60")
    else None
  }

  lemma PairedSellListsVolumePairs()
    ensures forall i :: 0 <= i < |VolumePairs| ==> PairedSell(VolumePairs[i].0) == Some(VolumePairs[i].1)
    ensures forall key :: PairedSell(key).Some? ==> exists i :: 0 <= i < |VolumePairs| && VolumePairs[i].0 == key
  {
    forall key | PairedSell(key).Some?
      ensures exists i :: 0 <= i < |VolumePairs| && VolumePairs[i].0 == key
    {
      if key == "bv_1" { assert VolumePairs[0].0 == key; }
      else if key == "bv_2" { assert VolumePairs[1].0 == key; }
      else if key == "bv_3" { assert VolumePairs[2].0 == key; }
      else if key == "bv_5" { assert VolumePairs[3].0 == key; }
      else if key == "bv_15" { assert VolumePairs[4].0 == key; }
      else { assert VolumePairs[5].0 == key; }
    }
  }

  function CellColor(t: Ticker, key: string, sortBy: string): string {
    var base := if key == sortBy then "gainsboro" else "";
    match PairedSell(key)
    case Some(sell) =>
      if Field(t, key).Some? && Field(t, sell).Some? then
        if t.numbers[key] > t.numbers[sell] then "lightgreen"
        else if t.numbers[key] < t.numbers[sell] then "orange"
        else base
      else base
    case None => base
  }

  function FieldValue(t: Ticker, key: string): Value
    requires key == "symbol" || key in t.numbers
  {
    if key == "symbol" then Text(t.symbol) else Number(t.numbers[key])
  }

  /** The wrapping `map` callback: one cell per field. */
  function WrapRow(t: Ticker, sortBy: string): (row: Row)
    ensures row.Keys == t.numbers.Keys + {"symbol"}
  {
    map key | key in t.numbers.Keys + {"symbol"} :: Cell(FieldValue(t, key), CellColor(t, key, sortBy))
  }

  /** Every field keeps its value. A buy volume above its sell volume is
      light green and one below is orange; every other cell is gainsboro
      iff it is the sort column, and blank otherwise. */
  lemma WrapRowColours(t: Ticker, sortBy: string, key: string)
    requires key in WrapRow(t, sortBy)
    ensures WrapRow(t, sortBy)[key].value == FieldValue(t, key)
    ensures var c := WrapRow(t, sortBy)[key].backgroundColor;
            var sell := PairedSell(key);
            if sell.Some? && key in t.numbers && sell.value in t.numbers && t.numbers[key] != t.numbers[sell.value] then
              c == (if t.numbers[key] > t.numbers[sell.value] then "lightgreen" else "orange")
            else
              c == (if key == sortBy then "gainsboro" else "")
  {
  }

  // ----- the whole render -----

  /** The rows before wrapping. */
  function PipelineRows(values: seq<Ticker>, cfg: Config, parse: string -> Option<real>,
                        held: Option<string>, activeRow: Option<nat>): seq<Ticker>
  {
    var f := FilterTickers(values, cfg, parse, held);
    var shown := Take(WatchOrder(Sort(f.kept, TickerOrder(cfg.sortBy, cfg.sortOrder)), cfg.watching), cfg.count);
    if activeRow.Some? && f.plucked.Some? then InsertAt(shown, activeRow.value, f.plucked.value) else shown
  }

  /** Every ticker wrapped as a row of cells. */
  function WrapRows(ts: seq<Ticker>, sortBy: string): (rows: seq<Row>)
    ensures |rows| == |ts|
    ensures forall i :: 0 <= i < |ts| ==> rows[i] == WrapRow(ts[i], sortBy)
  {
    seq(|ts|, i requires 0 <= i < |ts| => WrapRow(ts[i], sortBy))
  }

  function RenderRows(values: seq<Ticker>, cfg: Config, parse: string -> Option<real>,
                      held: Option<string>, activeRow: Option<nat>): seq<Row>
  {
    WrapRows(PipelineRows(values, cfg, parse, held, activeRow), cfg.sortBy)
  }

  /** The displayed tickers before re-insertion are kept tickers. */
  lemma ShownAreKept(kept: seq<Ticker>, cfg: Config)
    ensures var shown := Take(WatchOrder(Sort(kept, TickerOrder(cfg.sortBy, cfg.sortOrder)), cfg.watching), cfg.count);
            forall t :: t in shown ==> t in kept
  {
    var sorted := Sort(kept, TickerOrder(cfg.sortBy, cfg.sortOrder));
    var watched := WatchOrder(sorted, cfg.watching);
    WatchOrderShape(sorted, cfg.watching);
    var shown := Take(watched, cfg.count);
    forall t | t in shown ensures t in kept {
      var i :| 0 <= i < |shown| && shown[i] == t;
      assert watched[i] == t;
      assert t in multiset(watched);
      assert t in multiset(kept);
    }
  }

  lemma InsertAtMembers<T>(s: seq<T>, at: nat, x: T)
    ensures forall t :: t in InsertAt(s, at, x) ==> t in s || t == x
  {
    forall t | t in InsertAt(s, at, x) ensures t in s || t == x {
      assert t in multiset(InsertAt(s, at, x));
    }
  }

  /** Every rendered ticker passes the list and base tests, every one except
      a plucked one passes the bounds, and at most `count` rows plus the
      re-inserted one are shown. */
  lemma PipelineRowsShape(values: seq<Ticker>, cfg: Config, parse: string -> Option<real>,
                          held: Option<string>, activeRow: Option<nat>)
    ensures var rows := PipelineRows(values, cfg, parse, held, activeRow);
            (forall t :: t in rows ==> t in values && PassesLists(t, cfg)) &&
            (forall t :: t in rows && held != Some(t.symbol) ==> WithinBounds(t, cfg, parse))
    ensures var rows := PipelineRows(values, cfg, parse, held, activeRow);
            cfg.count >= 0 ==>
              |rows| <= cfg.count + (if activeRow.Some? && FilterTickers(values, cfg, parse, held).plucked.Some? then 1 else 0)
  {
    var f := FilterTickers(values, cfg, parse, held);
    FilterTickersSelects(values, cfg, parse, held);
    ShownAreKept(f.kept, cfg);
    var shown := Take(WatchOrder(Sort(f.kept, TickerOrder(cfg.sortBy, cfg.sortOrder)), cfg.watching), cfg.count);
    WatchSplit(Sort(f.kept, TickerOrder(cfg.sortBy, cfg.sortOrder)), cfg.watching);
    if activeRow.Some? && f.plucked.Some? {
      InsertAtMembers(shown, activeRow.value, f.plucked.value);
    }
  }

  /** The body of `render` between reading the map and storing the rows. */
  method BuildRows(values: seq<Ticker>, cfg: Config, parse: string -> Option<real>,
                   held: Option<string>, activeRow: Option<nat>) returns (rows: seq<Row>)
    ensures rows == RenderRows(values, cfg, parse, held, activeRow)
  {
    var filtered := FilterTickers(values, cfg, parse, held);
    var sorted := Sort(filtered.kept, TickerOrder(cfg.sortBy, cfg.sortOrder));
    var watched := MoveWatchedFirst(sorted, cfg.watching);
    var shown := Take(watched, cfg.count);
    if activeRow.Some? && filtered.plucked.Some? {
      shown := InsertAt(shown, activeRow.value, filtered.plucked.value);
    }
    rows := WrapRows(shown, cfg.sortBy);
  }

  /** The text `==` sees when one side is an object. */
  const ObjectText: string := "[object Object]"

  /** The hovered symbol as `render` reads it: the `symbol` of the hovered
      displayed row is a wrapped cell, an object, so the later `==` test
      against a ticker's symbol compares with "[object Object]". A row index
      past the table reads as no symbol. */
  function HeldSymbolAsWritten(rows: seq<Row>, activeRow: Option<nat>): Option<string> {
    if activeRow.Some? && activeRow.value < |rows| && "symbol" in rows[activeRow.value] then Some(ObjectText)
    else None
  }

  /** The hovered symbol as intended: the value of the hovered row's
      `symbol` cell. */
  function HeldSymbol(rows: seq<Row>, activeRow: Option<nat>): Option<string> {
    if activeRow.Some? && activeRow.value < |rows| && "symbol" in rows[activeRow.value] &&
       rows[activeRow.value]["symbol"].value.Text? then
      Some(rows[activeRow.value]["symbol"].value.text)
    else None
  }

  /** As written, hovering a row that shows "ETHBTC" holds nothing: the
      ticker is not plucked, so it is not kept at the hovered row. */
  lemma HeldSymbolAsWrittenNeverPlucks(rows: seq<Row>, activeRow: Option<nat>, values: seq<Ticker>,
                                       cfg: Config, parse: string -> Option<real>)
    requires forall t :: t in values ==> t.symbol != ObjectText
    ensures FilterTickers(values, cfg, parse, HeldSymbolAsWritten(rows, activeRow)).plucked == None
    ensures HeldSymbol([map["symbol" := Cell(Text("ETHBTC"), "")]], Some(0)) == Some("ETHBTC")
    ensures HeldSymbolAsWritten([map["symbol" := Cell(Text("ETHBTC"), "")]], Some(0)) == Some(ObjectText)
  {
    FilterTickersSelects(values, cfg, parse, HeldSymbolAsWritten(rows, activeRow));
  }

  /** With the intended hovered symbol, a ticker that still passes the list
      tests stays at the hovered row (or last, when the table got shorter),
      given that the tickers have distinct symbols, as the map's do. */
  lemma HeldRowStaysPut(rows: seq<Row>, r: nat, values: seq<Ticker>, cfg: Config,
                        parse: string -> Option<real>, t: Ticker)
    requires forall i, j :: 0 <= i < j < |values| ==> values[i].symbol != values[j].symbol
    requires t in values && PassesLists(t, cfg) && HeldSymbol(rows, Some(r)) == Some(t.symbol)
    ensures var out := PipelineRows(values, cfg, parse, HeldSymbol(rows, Some(r)), Some(r));
            var f := FilterTickers(values, cfg, parse, HeldSymbol(rows, Some(r)));
            var last := |out| - 1;
            |out| > 0 && out[if r < last then r else last] == t
  {
    var held := HeldSymbol(rows, Some(r));
    FilterTickersSelects(values, cfg, parse, held);
    var f := FilterTickers(values, cfg, parse, held);
    var p := f.plucked.value;
    var i :| 0 <= i < |values| && values[i] == p;
    var j :| 0 <= j < |values| && values[j] == t;
    assert i == j;
  }

  /** A ticker as it arrives: its top-level numeric fields and its price
      and volume change percentages by window. */
  datatype Update = Update(symbol: string, numbers: map<string, real>,
                           priceChangePct: map<string, real>, volumeChangePct: map<string, real>)

  lemma PrefixInjective(prefix: string, a: string, b: string)
    requires prefix + a == prefix + b
    ensures a == b
  {
    assert a == (prefix + a)[|prefix|..];
    assert b == (prefix + b)[|prefix|..];
  }

  /** The entries of `m` under `prefix` followed by their own key. */
  function Prefixed(prefix: string, m: map<string, real>): (r: map<string, real>)
    ensures forall k :: k in m ==> prefix + k in r && r[prefix + k] == m[k]
    ensures forall n :: n in r ==> StartsWith(n, prefix)
  {
    assert forall a, b :: a in m && b in m && prefix + a == prefix + b ==> a == b by {
      forall a, b | a in m && b in m && prefix + a == prefix + b ensures a == b {
        PrefixInjective(prefix, a, b);
      }
    }
    map k | k in m :: prefix + k := m[k]
  }

  /** `(ask - bid) / bid`; a missing field or a zero bid (NaN or an
      infinity in JavaScript) gives none. */
  function Spread(numbers: map<string, real>): Option<real> {
    if "ask" in numbers && "bid" in numbers && numbers["bid"] != 0.0
    then Some((numbers["ask"] - numbers["bid"]) / numbers["bid"])
    else None
  }

  const PricePrefix: string := "price_change_pct_"
  const VolumePrefix: string := "volume_change_pct_"

  /** `flattenTicker`: each price change percentage is copied to
      `price_change_pct_<window>`, each volume change percentage to
      `volume_change_pct_<window>`, and the spread is set. */
  function FlattenTicker(u: Update): Ticker {
    var withPrice := u.numbers + Prefixed(PricePrefix, u.priceChangePct);
    var withVolume := withPrice + Prefixed(VolumePrefix, u.volumeChangePct);
    var numbers := match Spread(u.numbers)
                   case Some(v) => withVolume["spread" := v]
                   case None => withVolume - {"spread"};
    Ticker(u.symbol, numbers)
  }

  lemma FlattenedPrice(u: Update, k: string)
    requires k in u.priceChangePct
    ensures Field(FlattenTicker(u), PricePrefix + k) == Some(u.priceChangePct[k])
  {
    var n := PricePrefix + k;
    assert n[0] == 'p';
    assert !StartsWith(n, VolumePrefix);
    assert n != "spread";
  }

  lemma FlattenedVolume(u: Update, k: string)
    requires k in u.volumeChangePct
    ensures Field(FlattenTicker(u), VolumePrefix + k) == Some(u.volumeChangePct[k])
  {
    var n := VolumePrefix + k;
    assert n[0] == 'v';
    assert n != "spread";
  }

  lemma FlattenedOther(u: Update, n: string)
    requires n in u.numbers && n != "spread" && !StartsWith(n, PricePrefix) && !StartsWith(n, VolumePrefix)
    ensures Field(FlattenTicker(u), n) == Some(u.numbers[n])
  {
    assert n !in Prefixed(PricePrefix, u.priceChangePct);
    assert n !in Prefixed(VolumePrefix, u.volumeChangePct);
  }

  /** After flattening, every window's price and volume change is a
      top-level field under its prefixed name, the spread is set from the
      ask and the bid, and every other field keeps its value. */
  lemma FlattenTickerFields(u: Update)
    ensures FlattenTicker(u).symbol == u.symbol
    ensures forall k :: k in u.priceChangePct ==> Field(FlattenTicker(u), PricePrefix + k) == Some(u.priceChangePct[k])
    ensures forall k :: k in u.volumeChangePct ==> Field(FlattenTicker(u), VolumePrefix + k) == Some(u.volumeChangePct[k])
    ensures Field(FlattenTicker(u), "spread") == Spread(u.numbers)
    ensures forall n :: n in u.numbers && n != "spread" && !StartsWith(n, PricePrefix) && !StartsWith(n, VolumePrefix) ==>
              Field(FlattenTicker(u), n) == Some(u.numbers[n])
  {
    forall k | k in u.priceChangePct
      ensures Field(FlattenTicker(u), PricePrefix + k) == Some(u.priceChangePct[k])
    {
      FlattenedPrice(u, k);
    }
    forall k | k in u.volumeChangePct
      ensures Field(FlattenTicker(u), VolumePrefix + k) == Some(u.volumeChangePct[k])
    {
      FlattenedVolume(u, k);
    }
    forall n | n in u.numbers && n != "spread" && !StartsWith(n, PricePrefix) && !StartsWith(n, VolumePrefix)
      ensures Field(FlattenTicker(u), n) == Some(u.numbers[n])
    {
      FlattenedOther(u, n);
    }
  }

  /** The incoming tickers after flattening, in order. */
  function FlattenTickers(us: seq<Update>): (r: seq<Ticker>)
    ensures |r| == |us| && forall i :: 0 <= i < |us| ==> r[i] == FlattenTicker(us[i])
  {
    seq(|us|, i requires 0 <= i < |us| => FlattenTicker(us[i]))
  }

  /** A merge applies each incoming ticker in order under its symbol. */
  function MergeAll(d: Dict<Ticker>, ts: seq<Ticker>): Dict<Ticker>
    decreases |ts|
  {
    if ts == [] then d
    else
      var n := |ts| - 1;
      MergeAll(d, ts[..n]).Put(ts[n].symbol, ts[n])
  }

  predicate LastWithSymbol(ts: seq<Ticker>, k: int, symbol: string) {
    0 <= k < |ts| && ts[k].symbol == symbol &&
    forall j :: k < j < |ts| ==> ts[j].symbol != symbol
  }

  /** A merge keeps the map well formed and keyed by each ticker's own
      symbol. */
  lemma {:induction false} MergeKeyed(d: Dict<Ticker>, ts: seq<Ticker>)
    requires d.Valid() && forall k :: k in d.entries ==> d.entries[k].symbol == k
    ensures MergeAll(d, ts).Valid()
    ensures forall k :: k in MergeAll(d, ts).entries ==> MergeAll(d, ts).entries[k].symbol == k
    decreases |ts|
  {
    if ts != [] {
      MergeKeyed(d, ts[..|ts| - 1]);
    }
  }

  /** After a merge a symbol maps to the last incoming ticker with that
      symbol; a symbol that did not come in keeps its entry or its absence. */
  lemma MergeEffect(d: Dict<Ticker>, ts: seq<Ticker>, symbol: string)
    ensures (forall i :: 0 <= i < |ts| ==> ts[i].symbol != symbol) ==> MergeAll(d, ts).Get(symbol) == d.Get(symbol)
    ensures forall k :: LastWithSymbol(ts, k, symbol) ==> MergeAll(d, ts).Get(symbol) == Some(ts[k])
  {
    if forall i :: 0 <= i < |ts| ==> ts[i].symbol != symbol {
      MergeUntouched(d, ts, symbol);
    }
    forall k | LastWithSymbol(ts, k, symbol) ensures MergeAll(d, ts).Get(symbol) == Some(ts[k]) {
      MergeLast(d, ts, symbol, k);
    }
  }

  lemma {:induction false} MergeUntouched(d: Dict<Ticker>, ts: seq<Ticker>, symbol: string)
    requires forall i :: 0 <= i < |ts| ==> ts[i].symbol != symbol
    ensures MergeAll(d, ts).Get(symbol) == d.Get(symbol)
    decreases |ts|
  {
    if ts != [] {
      var n := |ts| - 1;
      var prev := ts[..n];
      assert forall i :: 0 <= i < |prev| ==> prev[i].symbol != symbol by {
        forall i | 0 <= i < |prev| ensures prev[i].symbol != symbol {
          assert prev[i] == ts[i];
        }
      }
      MergeUntouched(d, prev, symbol);
    }
  }

  lemma {:induction false} MergeLast(d: Dict<Ticker>, ts: seq<Ticker>, symbol: string, k: int)
    requires LastWithSymbol(ts, k, symbol)
    ensures MergeAll(d, ts).Get(symbol) == Some(ts[k])
    decreases |ts|
  {
    var n := |ts| - 1;
    if k < n {
      var prev := ts[..n];
      assert LastWithSymbol(prev, k, symbol);
      MergeLast(d, prev, symbol, k);
    }
  }

  /** Values of a map keyed by each ticker's own symbol have distinct
      symbols. */
  lemma ValuesHaveDistinctSymbols(d: Dict<Ticker>)
    requires d.Valid() && forall k :: k in d.entries ==> d.entries[k].symbol == k
    ensures forall i, j :: 0 <= i < j < |d.Values()| ==> d.Values()[i].symbol != d.Values()[j].symbol
  {
  }

  class LiveComponent {
    var config: Config
    var tickerMap: Dict<Ticker>
    /** The displayed, wrapped rows. */
    var tickers: seq<Row>
    /** The row the pointer last entered. */
    var activeRow: Option<nat>
    var lastUpdate: int

    ghost predicate Valid()
      reads this
    {
      tickerMap.Valid() && forall k :: k in tickerMap.entries ==> tickerMap.entries[k].symbol == k
    }

    constructor ()
      ensures Valid()
      ensures config == DefaultConfig && tickerMap.entries == map[] && tickers == []
      ensures activeRow == None && lastUpdate == 0
    {
      config := DefaultConfig;
      tickerMap := EmptyDict();
      tickers := [];
      activeRow := None;
      lastUpdate := 0;
    }

    method MouseEnter(index: nat)
      modifies this
      ensures activeRow == Some(index)
      ensures config == old(config) && tickerMap == old(tickerMap) && tickers == old(tickers)
      ensures lastUpdate == old(lastUpdate)
    {
      activeRow := Some(index);
    }

    /** Rebuilds the displayed rows from the map. `now` is the clock. */
    method Render(now: int, parse: string -> Option<real>)
      modifies this
      requires Valid()
      ensures Valid()
      ensures config == old(config) && tickerMap == old(tickerMap) && activeRow == old(activeRow)
      ensures lastUpdate == now
      ensures tickers == RenderRows(tickerMap.Values(), config, parse, HeldSymbolAsWritten(old(tickers), activeRow), activeRow)
    {
      var held := HeldSymbolAsWritten(tickers, activeRow);
      var rows := BuildRows(tickerMap.Values(), config, parse, held, activeRow);
      tickers := rows;
      lastUpdate := now;
    }

    /** The update callback: a null update (the connect signal) changes
        nothing; otherwise every incoming ticker is flattened and stored
        under its symbol, and the table is rendered. */
    method OnUpdate(update: Option<seq<Update>>, now: int, parse: string -> Option<real>)
      modifies this
      requires Valid()
      ensures Valid()
      ensures config == old(config) && activeRow == old(activeRow)
      ensures update.None? ==> tickerMap == old(tickerMap) && tickers == old(tickers) && lastUpdate == old(lastUpdate)
      ensures update.Some? ==>
                tickerMap == MergeAll(old(tickerMap), FlattenTickers(update.value)) &&
                tickers == RenderRows(tickerMap.Values(), config, parse, HeldSymbolAsWritten(old(tickers), activeRow), activeRow)
    {
      if update.None? {
        return;
      }
      var incoming := update.value;
      ghost var flat := FlattenTickers(incoming);
      for i := 0 to |incoming|
        invariant tickerMap == MergeAll(old(tickerMap), flat[..i])
        invariant Valid()
        invariant tickers == old(tickers) && config == old(config) && activeRow == old(activeRow)
      {
        assert flat[..i + 1][..i] == flat[..i];
        MergeKeyed(old(tickerMap), flat[..i + 1]);
        var ticker := FlattenTicker(incoming[i]);
        tickerMap := tickerMap.Put(ticker.symbol, ticker);
      }
      assert flat[..|incoming|] == flat;
      Render(now, parse);
    }

    method ToggleSortOrder()
      modifies this
      ensures config == old(config).(sortOrder := Toggled(old(config).sortOrder))
      ensures tickerMap == old(tickerMap) && tickers == old(tickers) && activeRow == old(activeRow)
      ensures lastUpdate == old(lastUpdate)
    {
      if config.sortOrder == "asc" {
        config := config.(sortOrder := "desc");
      } else {
        config := config.(sortOrder := "asc");
      }
    }

    /** A click on the current sort column flips the order; a click on
        another column sorts by it in the current order. */
    method SortBy(column: string, now: int, parse: string -> Option<real>)
      modifies this
      requires Valid()
      ensures Valid()
      ensures old(config).sortBy == column ==> config == old(config).(sortOrder := Toggled(old(config).sortOrder))
      ensures old(config).sortBy != column ==> config == old(config).(sortBy := column)
      ensures tickerMap == old(tickerMap) && activeRow == old(activeRow) && lastUpdate == now
      ensures tickers == RenderRows(tickerMap.Values(), config, parse, HeldSymbolAsWritten(old(tickers), activeRow), activeRow)
    {
      if config.sortBy == column {
        ToggleSortOrder();
      } else {
        config := config.(sortBy := column);
      }
      Render(now, parse);
    }
  }

  /** The order after `toggleSortOrder`. */
  function Toggled(order: string): string {
    if order == "asc" then "desc" else "asc"
  }

  /** Toggling always yields a valid order, and toggling twice restores
      "asc" or "desc". */
  lemma ToggledTwice(order: string)
    ensures Toggled(order) == "asc" || Toggled(order) == "desc"
    ensures order == "asc" || order == "desc" ==> Toggled(Toggled(order)) == order
    ensures order != "asc" && order != "desc" ==> Toggled(order) == "asc"
  {
  }
}
