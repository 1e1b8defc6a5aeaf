/** The Binance volume page: for every BTC market it counts the "pings" of
    the per-minute net-volume histogram (the places where the volume falls
    from one minute to the next) and lists the markets most-pinged first. */
module VolumePings {
  import opened Wrappers
  import opened Text
  import opened Sorting

  /** One member of the server's volume response. `nvh` is absent or null
      for a market without a histogram. */
  datatype VolumeEntry = VolumeEntry(nvh: Option<seq<real>>, vol: real, nv60: real, v60: real)

  /** A row of the page's table. */
  datatype VolumeRow = VolumeRow(symbol: string, pings: nat, volume: real, nv60: real, v60: real)

  /** Whether the histogram falls at index `i`. */
  predicate FallsAt(s: seq<real>, i: int)
    requires 1 <= i < |s|
  {
    s[i - 1] > s[i]
  }

  /** The number of falls at the indices `k` .. |s| - 1. */
  function FallsFrom(s: seq<real>, k: nat): nat
    requires k >= 1
    decreases |s| - k
  {
    if k >= |s| then 0
    else (if FallsAt(s, k) then 1 else 0) + FallsFrom(s, k + 1)
  }

  /** The indices at which the histogram falls, from `k` on. */
  ghost function FallSet(s: seq<real>, k: nat): set<int>
    requires k >= 1
  {
    set i | k <= i < |s| && FallsAt(s, i)
  }

  /** The count is the size of the set of falling indices, and there can be
      no more falls than neighbouring pairs. */
  lemma {:induction false} FallsFromCounts(s: seq<real>, k: nat)
    requires k >= 1
    ensures FallsFrom(s, k) == |FallSet(s, k)|
    ensures FallsFrom(s, k) <= if k < |s| then |s| - k else 0
    decreases |s| - k
  {
    if k >= |s| {
      assert FallSet(s, k) == {};
    } else {
      FallsFromCounts(s, k + 1);
      if FallsAt(s, k) {
        assert FallSet(s, k) == {k} + FallSet(s, k + 1);
      } else {
        assert FallSet(s, k) == FallSet(s, k + 1);
      }
    }
  }

  /** The pings of a histogram: none for a missing or empty one. */
  function Pings(nvh: Option<seq<real>>): nat {
    if nvh.None? || |nvh.value| == 0 then 0 else FallsFrom(nvh.value, 1)
  }

  /** `calculatePings`, the downward counting loop. */
  method CalculatePings(nvh: Option<seq<real>>) returns (pings: nat)
    ensures pings == Pings(nvh)
    ensures nvh.Some? && |nvh.value| > 0 ==>
              pings == |FallSet(nvh.value, 1)| && pings <= |nvh.value| - 1
  {
    if nvh.None? || |nvh.value| == 0 {
      return 0;
    }
    var s := nvh.value;
    pings := 0;
    var i := |s| - 1;
    while i > 0
      invariant 0 <= i <= |s| - 1
      invariant pings == FallsFrom(s, i + 1)
    {
      if s[i - 1] > s[i] {
        pings := pings + 1;
      }
      i := i - 1;
    }
    FallsFromCounts(s, 1);
  }

  /** The row of one member of the response. */
  function RowFor(m: (string, VolumeEntry)): VolumeRow {
    VolumeRow(m.0, Pings(m.1.nvh), m.1.vol, m.1.nv60, m.1.v60)
  }

  /** The rows for the BTC members of the response, in key order. */
  function VolumeRows(data: seq<(string, VolumeEntry)>): seq<VolumeRow> {
    if data == [] then []
    else
      var m := data[|data| - 1];
      VolumeRows(data[..|data| - 1]) + (if EndsWith(m.0, "BTC") then [RowFor(m)] else [])
  }

  /** The rows list exactly the BTC members, each with its own pings and
      figures, in the order of the response. */
  lemma VolumeRowsListBtc(data: seq<(string, VolumeEntry)>)
    ensures |VolumeRows(data)| <= |data|
    ensures forall r :: r in VolumeRows(data) <==>
              exists i :: 0 <= i < |data| && EndsWith(data[i].0, "BTC") && r == RowFor(data[i])
  {
    VolumeRowsLength(data);
    forall r | r in VolumeRows(data)
      ensures exists i :: 0 <= i < |data| && EndsWith(data[i].0, "BTC") && r == RowFor(data[i])
    {
      var i := VolumeRowHasMember(data, r);
    }
    forall i | 0 <= i < |data| && EndsWith(data[i].0, "BTC")
      ensures RowFor(data[i]) in VolumeRows(data)
    {
      BtcMemberHasRow(data, i);
    }
  }

  lemma {:induction false} VolumeRowsLength(data: seq<(string, VolumeEntry)>)
    ensures |VolumeRows(data)| <= |data|
  {
    if data != [] {
      VolumeRowsLength(data[..|data| - 1]);
    }
  }

  lemma {:induction false} VolumeRowHasMember(data: seq<(string, VolumeEntry)>, r: VolumeRow) returns (i: nat)
    requires r in VolumeRows(data)
    ensures i < |data| && EndsWith(data[i].0, "BTC") && r == RowFor(data[i])
  {
    var n := |data| - 1;
    var init := data[..n];
    if r in VolumeRows(init) {
      i := VolumeRowHasMember(init, r);
      assert data[i] == init[i];
    } else {
      i := n;
    }
  }

  lemma {:induction false} BtcMemberHasRow(data: seq<(string, VolumeEntry)>, i: nat)
    requires i < |data| && EndsWith(data[i].0, "BTC")
    ensures RowFor(data[i]) in VolumeRows(data)
  {
    var n := |data| - 1;
    if i < n {
      var init := data[..n];
      assert init[i] == data[i];
      BtcMemberHasRow(init, i);
    }
  }

  /** The loop of `refresh` that collects the BTC rows. */
  method CollectRows(data: seq<(string, VolumeEntry)>) returns (rows: seq<VolumeRow>)
    ensures rows == VolumeRows(data)
  {
    rows := [];
    for n := 0 to |data|
      invariant rows == VolumeRows(data[..n])
    {
      assert data[..n + 1][..n] == data[..n];
      var (key, e) := data[n];
      if !EndsWith(key, "BTC") {
        continue;
      }
      var pings := CalculatePings(e.nvh);
      rows := rows + [VolumeRow(key, pings, e.vol, e.nv60, e.v60)];
    }
    assert data[..|data|] == data;
  }

  /** The comparator `(a, b) => b.pings - a.pings`. */
  function ByPingsDesc(): (VolumeRow, VolumeRow) -> bool {
    ByKeyDesc((r: VolumeRow) => r.pings as real)
  }

  /** The sorted table: a permutation of the BTC rows, most pings first. */
  lemma VolumeTableSorted(data: seq<(string, VolumeEntry)>)
    ensures multiset(Sort(VolumeRows(data), ByPingsDesc())) == multiset(VolumeRows(data))
    ensures var t := Sort(VolumeRows(data), ByPingsDesc());
            forall i, j :: 0 <= i < j < |t| ==> t[i].pings >= t[j].pings
  {
    SortByKeyDesc(VolumeRows(data), (r: VolumeRow) => r.pings as real);
  }

  class BinanceVolumeComponent {
    var tickers: seq<VolumeRow>

    constructor()
      ensures tickers == []
    {
      tickers := [];
    }

    /** One refresh with the decoded response members. */
    method Refresh(data: seq<(string, VolumeEntry)>)
      modifies this
      ensures tickers == Sort(VolumeRows(data), ByPingsDesc())
    {
      var rows := CollectRows(data);
      tickers := Sort(rows, ByPingsDesc());
    }
  }
}
