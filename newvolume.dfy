/** The Binance "new volume" page: every BTC market's net-volume histogram
    is smoothed into running window sums, each fall between neighbouring
    windows scores 60 minus its index, and the markets whose score is
    positive are listed by their average score per fall. */
module NewVolume {
  import opened Wrappers
  import opened Text
  import opened Sorting
  import opened VolumePings

  /** A member of the server's volume response as this page reads it. */
  datatype NewVolumeEntry = NewVolumeEntry(nvh: Option<seq<real>>, vol: real, nv60: real, v60: real, t60: real)

  datatype NewVolumeRow = NewVolumeRow(symbol: string, pings: real, volume: real, nv60: real, v60: real, t60: real)

  function Sum(s: seq<real>): real {
    if s == [] then 0.0 else Sum(s[..|s| - 1]) + s[|s| - 1]
  }

  function Min(a: int, b: int): int {
    if a <= b then a else b
  }

  /** `vals.slice(i, i + interval)` for an index inside `vals`. */
  function Window(vals: seq<real>, i: nat, interval: nat): (r: seq<real>)
    requires i < |vals|
    ensures |r| == Min(interval, |vals| - i)
  {
    vals[i..Min(i + interval, |vals|)]
  }

  /** What `bucket` computes: one window sum per input index, windows
      cut short at the end of the histogram. */
  function Buckets(vals: seq<real>, interval: nat): (r: seq<real>)
    ensures |r| == |vals|
  {
    seq(|vals|, i requires 0 <= i < |vals| => Sum(Window(vals, i, interval)))
  }

  /** The inner summing loop of `bucket`. */
  method SumOf(parts: seq<real>) returns (sum: real)
    ensures sum == Sum(parts)
  {
    sum := 0.0;
    for i := 0 to |parts|
      invariant sum == Sum(parts[..i])
    {
      assert parts[..i + 1][..i] == parts[..i];
      sum := sum + parts[i];
    }
    assert parts[..|parts|] == parts;
  }

  /** `bucket`: the outer loop pushes one window sum per index. */
  method Bucket(vals: seq<real>, interval: nat) returns (output: seq<real>)
    ensures output == Buckets(vals, interval)
  {
    output := [];
    for i := 0 to |vals|
      invariant |output| == i
      invariant forall k :: 0 <= k < i ==> output[k] == Sum(Window(vals, k, interval))
    {
      var parts := vals[i..Min(i + interval, |vals|)];
      var sum := SumOf(parts);
      output := output + [sum];
    }
  }

  lemma SumOfOne(x: real)
    ensures Sum([x]) == x
  {
    assert [x][..0] == [];
  }

  /** With windows of one minute the histogram is unchanged. */
  lemma BucketsOfOne(vals: seq<real>)
    ensures Buckets(vals, 1) == vals
  {
    forall i | 0 <= i < |vals|
      ensures Buckets(vals, 1)[i] == vals[i]
    {
      assert Window(vals, i, 1) == [vals[i]];
      SumOfOne(vals[i]);
    }
  }

  /** The score of the falls at indices `k` .. |b| - 1: a fall at `i`
      scores `60 - i`. */
  function Score(b: seq<real>, k: nat): int
    requires k >= 1
    decreases |b| - k
  {
    if k >= |b| then 0
    else (if FallsAt(b, k) then 60 - k else 0) + Score(b, k + 1)
  }

  /** The scoring loop of `refresh`, from the last index down to 1. */
  method ScorePings(b: seq<real>) returns (pings: int, pingCount: nat)
    ensures pings == Score(b, 1)
    ensures pingCount == FallsFrom(b, 1)
  {
    pings := 0;
    pingCount := 0;
    if |b| == 0 {
      return;
    }
    var i := |b| - 1;
    while i > 0
      invariant 0 <= i <= |b| - 1
      invariant pings == Score(b, i + 1)
      invariant pingCount == FallsFrom(b, i + 1)
    {
      if b[i - 1] > b[i] {
        pings := pings + (60 - i);
        pingCount := pingCount + 1;
      }
      i := i - 1;
    }
  }

  /** Without a fall there is no score, so a positive score always has a
      fall to divide by. */
  lemma {:induction false} ScoreNeedsFall(b: seq<real>, k: nat)
    requires k >= 1
    ensures FallsFrom(b, k) == 0 ==> Score(b, k) == 0
    decreases |b| - k
  {
    if k < |b| {
      ScoreNeedsFall(b, k + 1);
    }
  }

  /** On a histogram of at most 60 buckets every fall scores at least 1, so
      the score is positive exactly when there is a fall. */
  lemma {:induction false} FallScores(b: seq<real>, k: nat)
    requires k >= 1 && |b| <= 60
    ensures Score(b, k) >= 0
    ensures FallsFrom(b, k) > 0 <==> Score(b, k) > 0
    decreases |b| - k
  {
    if k < |b| {
      FallScores(b, k + 1);
    }
  }

  /** Whether `refresh` lists the member: a BTC market with a histogram,
      enough 24-hour volume and a positive score. */
  predicate Qualifies(key: string, e: NewVolumeEntry, minVolume: real, interval: nat) {
    && EndsWith(key, "BTC")
    && e.nvh.Some?
    && !(e.vol < minVolume)
    && Score(Buckets(e.nvh.value, interval), 1) > 0
  }

  /** The row of a listed member: its average score per fall. */
  function RowOf(key: string, e: NewVolumeEntry, minVolume: real, interval: nat): NewVolumeRow
    requires Qualifies(key, e, minVolume, interval)
  {
    var b := Buckets(e.nvh.value, interval);
    ScoreNeedsFall(b, 1);
    NewVolumeRow(key, Score(b, 1) as real / FallsFrom(b, 1) as real, e.vol, e.nv60, e.v60, e.t60)
  }

  function NewVolumeRows(data: seq<(string, NewVolumeEntry)>, minVolume: real, interval: nat): seq<NewVolumeRow> {
    if data == [] then []
    else
      var (key, e) := data[|data| - 1];
      NewVolumeRows(data[..|data| - 1], minVolume, interval) +
      (if Qualifies(key, e, minVolume, interval) then [RowOf(key, e, minVolume, interval)] else [])
  }

  /** A row appears exactly for each listed member, and its average score
      is positive. */
  lemma NewVolumeRowsListed(data: seq<(string, NewVolumeEntry)>, minVolume: real, interval: nat)
    ensures forall r :: r in NewVolumeRows(data, minVolume, interval) <==>
              exists i :: 0 <= i < |data| && Qualifies(data[i].0, data[i].1, minVolume, interval) &&
                          r == RowOf(data[i].0, data[i].1, minVolume, interval)
    ensures forall r :: r in NewVolumeRows(data, minVolume, interval) ==> r.pings > 0.0
  {
    forall r | r in NewVolumeRows(data, minVolume, interval)
      ensures exists i :: 0 <= i < |data| && Qualifies(data[i].0, data[i].1, minVolume, interval) &&
                          r == RowOf(data[i].0, data[i].1, minVolume, interval)
      ensures r.pings > 0.0
    {
      var i := RowHasMember(data, minVolume, interval, r);
      RowOfPositive(data[i].0, data[i].1, minVolume, interval);
    }
    forall i | 0 <= i < |data| && Qualifies(data[i].0, data[i].1, minVolume, interval)
      ensures RowOf(data[i].0, data[i].1, minVolume, interval) in NewVolumeRows(data, minVolume, interval)
    {
      MemberHasRow(data, minVolume, interval, i);
    }
  }

  lemma RowOfPositive(key: string, e: NewVolumeEntry, minVolume: real, interval: nat)
    requires Qualifies(key, e, minVolume, interval)
    ensures RowOf(key, e, minVolume, interval).pings > 0.0
  {
    ScoreNeedsFall(Buckets(e.nvh.value, interval), 1);
  }

  lemma {:induction false} RowHasMember(data: seq<(string, NewVolumeEntry)>, minVolume: real, interval: nat,
                                        r: NewVolumeRow) returns (i: nat)
    requires r in NewVolumeRows(data, minVolume, interval)
    ensures i < |data| && Qualifies(data[i].0, data[i].1, minVolume, interval) &&
            r == RowOf(data[i].0, data[i].1, minVolume, interval)
  {
    var n := |data| - 1;
    var init := data[..n];
    if r in NewVolumeRows(init, minVolume, interval) {
      i := RowHasMember(init, minVolume, interval, r);
      assert data[i] == init[i];
    } else {
      i := n;
    }
  }

  lemma {:induction false} MemberHasRow(data: seq<(string, NewVolumeEntry)>, minVolume: real, interval: nat, i: nat)
    requires i < |data| && Qualifies(data[i].0, data[i].1, minVolume, interval)
    ensures RowOf(data[i].0, data[i].1, minVolume, interval) in NewVolumeRows(data, minVolume, interval)
  {
    var n := |data| - 1;
    if i < n {
      var init := data[..n];
      assert init[i] == data[i];
      MemberHasRow(init, minVolume, interval, i);
    }
  }

  /** The member loop of `refresh`. */
  method CollectNewVolumeRows(data: seq<(string, NewVolumeEntry)>, minVolume: real, interval: nat)
    returns (rows: seq<NewVolumeRow>)
    ensures rows == NewVolumeRows(data, minVolume, interval)
  {
    rows := [];
    for n := 0 to |data|
      invariant rows == NewVolumeRows(data[..n], minVolume, interval)
    {
      assert data[..n + 1][..n] == data[..n];
      var (key, e) := data[n];
      if !EndsWith(key, "BTC") {
        continue;
      }
      if e.nvh.None? {
        continue;
      }
      if e.vol < minVolume {
        continue;
      }
      var nvh := Bucket(e.nvh.value, interval);
      var pings, pingCount := ScorePings(nvh);
      if pings > 0 {
        ScoreNeedsFall(nvh, 1);
        rows := rows + [NewVolumeRow(key, pings as real / pingCount as real, e.vol, e.nv60, e.v60, e.t60)];
      }
    }
    assert data[..|data|] == data;
  }

  /** The comparator `(a, b) => b[sortKey] - a[sortKey]` with the sort key
      "pings". */
  function ByAveragePingsDesc(): (NewVolumeRow, NewVolumeRow) -> bool {
    ByKeyDesc((r: NewVolumeRow) => r.pings)
  }

  lemma NewVolumeTableSorted(data: seq<(string, NewVolumeEntry)>, minVolume: real, interval: nat)
    ensures var rows := NewVolumeRows(data, minVolume, interval);
            multiset(Sort(rows, ByAveragePingsDesc())) == multiset(rows)
    ensures var t := Sort(NewVolumeRows(data, minVolume, interval), ByAveragePingsDesc());
            forall i, j :: 0 <= i < j < |t| ==> t[i].pings >= t[j].pings
  {
    SortByKeyDesc(NewVolumeRows(data, minVolume, interval), (r: NewVolumeRow) => r.pings);
  }

  class NewvolumeComponent {
    var tickers: seq<NewVolumeRow>
    var min24HourVolume: real
    var interval: nat

    constructor()
      ensures tickers == [] && min24HourVolume == 0.0 && interval == 5
    {
      tickers := [];
      min24HourVolume := 0.0;
      interval := 5;
    }

    method Refresh(data: seq<(string, NewVolumeEntry)>)
      modifies this
      ensures min24HourVolume == old(min24HourVolume) && interval == old(interval)
      ensures tickers == Sort(NewVolumeRows(data, min24HourVolume, interval), ByAveragePingsDesc())
    {
      var rows := CollectNewVolumeRows(data, min24HourVolume, interval);
      tickers := Sort(rows, ByAveragePingsDesc());
    }
  }
}
