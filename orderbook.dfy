/** The client's order-book synchroniser (`OrderBookTracker` of the symbol
    page): a REST depth snapshot merged with streamed depth diffs. Until the
    snapshot arrives diffs are queued; afterwards they are applied directly.
    Each side is a price -> quantity map, and the rendered book is each side
    sorted best-first and cut to 30 levels. Prices are the numbers the source
    gets by coercing the wire strings with `+`, so one number is one key. */
module OrderBook {
  import opened Sorting

  /** A price level `[price, quantity]`. */
  datatype Level = Level(price: real, qty: real)

  /** A depth diff event: `U` (first update id), `u` (final update id) and
      the changed bid and ask levels. */
  datatype DepthUpdate = DepthUpdate(firstId: int, finalId: int, bids: seq<Level>, asks: seq<Level>)

  /** The REST depth snapshot. */
  datatype Snapshot = Snapshot(lastUpdateId: int, bids: seq<Level>, asks: seq<Level>)

  type Side = map<real, real>

  /** How many levels of each side `render` keeps. */
  const RenderDepth: nat := 30

  /** `levels[k]` is the last level that names price `p`. */
  predicate LastNaming(levels: seq<Level>, k: int, p: real) {
    0 <= k < |levels| && levels[k].price == p &&
    forall j :: k < j < |levels| ==> levels[j].price != p
  }

  /** The snapshot loading loop: every level is written, zero quantities
      included, over whatever the map already holds. */
  function Upsert(m: Side, levels: seq<Level>): Side
    decreases |levels|
  {
    if levels == [] then m
    else
      var n := |levels| - 1;
      Upsert(m, levels[..n])[levels[n].price := levels[n].qty]
  }

  /** One diff level: quantity 0 deletes the price, anything else sets it. */
  function ApplyLevel(m: Side, l: Level): Side {
    if l.qty == 0.0 then m - {l.price} else m[l.price := l.qty]
  }

  /** The diff loop of `processUpdate` over one side, in order. */
  function ApplyLevels(m: Side, levels: seq<Level>): Side
    decreases |levels|
  {
    if levels == [] then m
    else
      var n := |levels| - 1;
      ApplyLevel(ApplyLevels(m, levels[..n]), levels[n])
  }

  /** The loop of one side of a diff, over a copy of the side's map. */
  method ApplyDiff(m: Side, levels: seq<Level>) returns (r: Side)
    ensures r == ApplyLevels(m, levels)
  {
    r := m;
    for i := 0 to |levels|
      invariant r == ApplyLevels(m, levels[..i])
    {
      assert levels[..i + 1][..i] == levels[..i];
      var level := levels[i];
      if level.qty == 0.0 {
        r := r - {level.price};
      } else {
        r := r[level.price := level.qty];
      }
    }
    assert levels[..|levels|] == levels;
  }

  /** After the snapshot loop a price is present iff it was present or some
      level names it; its quantity is that of the last level naming it, or
      the old one when no level does. */
  lemma {:induction false} UpsertEffect(m: Side, levels: seq<Level>, p: real)
    ensures (forall i :: 0 <= i < |levels| ==> levels[i].price != p) ==>
              (p in Upsert(m, levels) <==> p in m) &&
              (p in m ==> Upsert(m, levels)[p] == m[p])
    ensures forall k :: LastNaming(levels, k, p) ==>
              p in Upsert(m, levels) && Upsert(m, levels)[p] == levels[k].qty
  {
    if levels != [] {
      var n := |levels| - 1;
      var prev := levels[..n];
      UpsertEffect(m, prev, p);
      forall k | LastNaming(levels, k, p)
        ensures p in Upsert(m, levels) && Upsert(m, levels)[p] == levels[k].qty
      {
        if k < n {
          assert levels[n].price != p;
          assert LastNaming(prev, k, p);
        }
      }
      if forall i :: 0 <= i < |levels| ==> levels[i].price != p {
        assert forall i :: 0 <= i < |prev| ==> prev[i].price != p by {
          forall i | 0 <= i < |prev| ensures prev[i].price != p {
            assert prev[i] == levels[i];
          }
        }
      }
    }
  }

  /** After a diff a price's entry is decided by the last level naming it
      (deleted iff its quantity is 0); a price no level names keeps its old
      entry, or its absence. */
  lemma {:induction false} ApplyLevelsEffect(m: Side, levels: seq<Level>, p: real)
    ensures (forall i :: 0 <= i < |levels| ==> levels[i].price != p) ==>
              (p in ApplyLevels(m, levels) <==> p in m) &&
              (p in m ==> ApplyLevels(m, levels)[p] == m[p])
    ensures forall k :: LastNaming(levels, k, p) ==>
              (p in ApplyLevels(m, levels) <==> levels[k].qty != 0.0) &&
              (p in ApplyLevels(m, levels) ==> ApplyLevels(m, levels)[p] == levels[k].qty)
  {
    if levels != [] {
      var n := |levels| - 1;
      var prev := levels[..n];
      ApplyLevelsEffect(m, prev, p);
      forall k | LastNaming(levels, k, p)
        ensures (p in ApplyLevels(m, levels) <==> levels[k].qty != 0.0) &&
                (p in ApplyLevels(m, levels) ==> ApplyLevels(m, levels)[p] == levels[k].qty)
      {
        if k < n {
          assert levels[n].price != p;
          assert LastNaming(prev, k, p);
        }
      }
      if forall i :: 0 <= i < |levels| ==> levels[i].price != p {
        assert forall i :: 0 <= i < |prev| ==> prev[i].price != p by {
          forall i | 0 <= i < |prev| ensures prev[i].price != p {
            assert prev[i] == levels[i];
          }
        }
      }
    }
  }

  /** The state `initialize` reaches by draining the queue: diffs are taken
      in arrival order, and each is applied only when its final id exceeds
      the current one, which each applied diff raises to its own. */
  function Drain(id: int, bidMap: Side, askMap: Side, queue: seq<DepthUpdate>): (int, Side, Side)
    decreases |queue|
  {
    if queue == [] then (id, bidMap, askMap)
    else if queue[0].finalId > id then
      Drain(queue[0].finalId, ApplyLevels(bidMap, queue[0].bids), ApplyLevels(askMap, queue[0].asks), queue[1..])
    else Drain(id, bidMap, askMap, queue[1..])
  }

  /** The drained id is the largest of the starting id and the queued final
      ids. */
  lemma {:induction false} DrainFinalId(id: int, bidMap: Side, askMap: Side, queue: seq<DepthUpdate>)
    decreases |queue|
    ensures Drain(id, bidMap, askMap, queue).0 >= id
    ensures forall i :: 0 <= i < |queue| ==> Drain(id, bidMap, askMap, queue).0 >= queue[i].finalId
    ensures Drain(id, bidMap, askMap, queue).0 == id ||
            exists i :: 0 <= i < |queue| && Drain(id, bidMap, askMap, queue).0 == queue[i].finalId
  {
    if queue != [] {
      var rest := queue[1..];
      if queue[0].finalId > id {
        DrainFinalId(queue[0].finalId, ApplyLevels(bidMap, queue[0].bids), ApplyLevels(askMap, queue[0].asks), rest);
      } else {
        DrainFinalId(id, bidMap, askMap, rest);
      }
      var r := Drain(id, bidMap, askMap, queue);
      forall i | 0 <= i < |queue| ensures r.0 >= queue[i].finalId {
        if i > 0 {
          assert queue[i] == rest[i - 1];
        }
      }
      if r.0 != id && r.0 != queue[0].finalId {
        var i :| 0 <= i < |rest| && r.0 == rest[i].finalId;
        assert r.0 == queue[i + 1].finalId;
      }
    }
  }

  /** Diffs that the current id already covers change nothing. */
  lemma {:induction false} DrainStaleIsNoOp(id: int, bidMap: Side, askMap: Side, queue: seq<DepthUpdate>)
    requires forall i :: 0 <= i < |queue| ==> queue[i].finalId <= id
    ensures Drain(id, bidMap, askMap, queue) == (id, bidMap, askMap)
  {
    if queue != [] {
      assert queue[0].finalId <= id;
      DrainStaleIsNoOp(id, bidMap, askMap, queue[1..]);
    }
  }

  /** A snapshot at id 100 followed by queued diffs with final ids 103, 95
      and 101: only the first is applied, since 103 covers the other two. */
  lemma DrainExample(bidMap: Side, askMap: Side, d1: DepthUpdate, d2: DepthUpdate, d3: DepthUpdate)
    requires d1.finalId == 103 && d2.finalId == 95 && d3.finalId == 101
    ensures Drain(100, bidMap, askMap, [d1, d2, d3]) ==
            (103, ApplyLevels(bidMap, d1.bids), ApplyLevels(askMap, d1.asks))
  {
    var b := ApplyLevels(bidMap, d1.bids);
    var a := ApplyLevels(askMap, d1.asks);
    assert [d1, d2, d3][1..] == [d2, d3];
    assert [d2, d3][1..] == [d3];
    assert [d3][1..] == [];
    assert Drain(103, b, a, [d3]) == Drain(103, b, a, []);
    assert Drain(103, b, a, [d2, d3]) == Drain(103, b, a, [d3]);
  }

  /** `a` is better placed than `b`: higher for bids, lower for asks. */
  predicate Beyond(descending: bool, a: real, b: real) {
    if descending then a > b else a < b
  }

  function Prices(view: seq<Level>): set<real> {
    set l | l in view :: l.price
  }

  /** `view` is the rendered form of side `m`: the best `depth` levels of
      `m` (or all of them), each an entry of `m`, strictly best-first, and
      every price left out lies behind the last one shown. */
  ghost predicate IsBookView(view: seq<Level>, m: Side, descending: bool, depth: nat) {
    && |view| == (if |m| < depth then |m| else depth)
    && (forall i :: 0 <= i < |view| ==> view[i].price in m && m[view[i].price] == view[i].qty)
    && (forall i, j :: 0 <= i < j < |view| ==> Beyond(descending, view[i].price, view[j].price))
    && (forall p :: p in m && p !in Prices(view) ==> |view| > 0 && Beyond(descending, view[|view| - 1].price, p))
  }

  lemma NonEmptyHasPrice(prices: set<real>)
    requires prices != {}
    ensures exists p :: p in prices
  {
    assert (forall p :: p !in prices) ==> prices == {};
  }

  /** `Object.keys` of one side: every key once. */
  method KeysOf(m: Side) returns (keys: seq<real>)
    ensures Distinct(keys)
    ensures forall p :: p in keys <==> p in m
    ensures |keys| == |m|
  {
    keys := [];
    var rest := m.Keys;
    while rest != {}
      invariant rest <= m.Keys
      invariant Distinct(keys)
      invariant forall p :: p in keys <==> p in m && p !in rest
      invariant |keys| + |rest| == |m|
      decreases |rest|
    {
      NonEmptyHasPrice(rest);
      var price :| price in rest;
      keys := keys + [price];
      rest := rest - {price};
    }
  }

  /** Keys sorted best-first, paired with their quantities and cut to
      `depth`, form the rendered view. */
  lemma SortedKeysView(m: Side, keys: seq<real>, sorted: seq<real>, descending: bool, depth: nat,
                       le: (real, real) -> bool, view: seq<Level>)
    requires Distinct(keys) && (forall p :: p in keys <==> p in m) && |keys| == |m|
    requires multiset(sorted) == multiset(keys)
    requires forall a, b :: le(a, b) <==> (a == b || Beyond(descending, a, b))
    requires SortedBy(sorted, le)
    requires depth > 0
    requires forall i :: 0 <= i < |sorted| ==> sorted[i] in m
    requires |view| == (if |sorted| < depth then |sorted| else depth)
    requires forall i :: 0 <= i < |view| ==> view[i] == Level(sorted[i], m[sorted[i]])
    ensures IsBookView(view, m, descending, depth)
  {
    DistinctPermutation(keys, sorted);
    assert |sorted| == |keys|;
    forall i, j | 0 <= i < j < |view|
      ensures Beyond(descending, view[i].price, view[j].price)
    {
      assert le(sorted[i], sorted[j]);
    }
    assert forall i :: 0 <= i < |view| ==> sorted[i] in Prices(view) by {
      forall i | 0 <= i < |view| ensures sorted[i] in Prices(view) {
        assert view[i] in view;
      }
    }
    forall p | p in m && p !in Prices(view)
      ensures |view| > 0 && Beyond(descending, view[|view| - 1].price, p)
    {
      assert p in multiset(keys);
      assert p in multiset(sorted);
      var j :| 0 <= j < |sorted| && sorted[j] == p;
      assert le(sorted[|view| - 1], sorted[j]);
    }
  }

  /** The `Object.keys(...).sort(...).map(...).slice(0, 30)` chain of
      `render` for one side. */
  method SideView(m: Side, descending: bool) returns (view: seq<Level>)
    ensures IsBookView(view, m, descending, RenderDepth)
  {
    var keys := KeysOf(m);
    var le: (real, real) -> bool :=
      if descending then (a: real, b: real) => a >= b else (a: real, b: real) => a <= b;
    var sorted := Sort(keys, le);
    assert TotalPreorder(le);
    assert forall i :: 0 <= i < |sorted| ==> sorted[i] in m by {
      forall i | 0 <= i < |sorted| ensures sorted[i] in m {
        assert sorted[i] in multiset(sorted);
        assert sorted[i] in multiset(keys);
      }
    }
    var levels := seq(|sorted|, i requires 0 <= i < |sorted| => Level(sorted[i], m[sorted[i]]));
    view := if |levels| < RenderDepth then levels else levels[..RenderDepth];
    SortedKeysView(m, keys, sorted, descending, RenderDepth, le, view);
  }

  class OrderBookTracker {
    var lastUpdateId: int
    var initialized: bool
    var queue: seq<DepthUpdate>
    var bidMap: Side
    var askMap: Side
    /** The rendered sides: best bids (highest first) and best asks (lowest
        first). */
    var bids: seq<Level>
    var asks: seq<Level>

    /** The rendered sides always show the current maps. */
    ghost predicate Rendered()
      reads this
    {
      IsBookView(bids, bidMap, true, RenderDepth) && IsBookView(asks, askMap, false, RenderDepth)
    }

    constructor ()
      ensures lastUpdateId == 0 && !initialized && queue == []
      ensures bidMap == map[] && askMap == map[] && bids == [] && asks == []
      ensures Rendered()
    {
      lastUpdateId := 0;
      initialized := false;
      queue := [];
      bidMap := map[];
      askMap := map[];
      bids := [];
      asks := [];
    }

    method Render()
      modifies this
      ensures Rendered()
      ensures lastUpdateId == old(lastUpdateId) && initialized == old(initialized) && queue == old(queue)
      ensures bidMap == old(bidMap) && askMap == old(askMap)
    {
      bids := SideView(bidMap, true);
      asks := SideView(askMap, false);
    }

    /** Applies one diff: the id becomes its final id and each side takes
        its levels in order. */
    method ProcessUpdate(update: DepthUpdate)
      modifies this
      ensures lastUpdateId == update.finalId
      ensures bidMap == ApplyLevels(old(bidMap), update.bids)
      ensures askMap == ApplyLevels(old(askMap), update.asks)
      ensures initialized == old(initialized) && queue == old(queue)
      ensures Rendered()
    {
      lastUpdateId := update.finalId;
      bidMap := ApplyDiff(bidMap, update.bids);
      askMap := ApplyDiff(askMap, update.asks);
      Render();
    }

    /** Loads a snapshot over the current maps, then drains the queue. */
    method Initialize(snapshot: Snapshot)
      modifies this
      ensures (lastUpdateId, bidMap, askMap) ==
              Drain(snapshot.lastUpdateId, Upsert(old(bidMap), snapshot.bids), Upsert(old(askMap), snapshot.asks), old(queue))
      ensures queue == [] && initialized
      ensures Rendered()
    {
      lastUpdateId := snapshot.lastUpdateId;
      var b := bidMap;
      for i := 0 to |snapshot.bids|
        invariant b == Upsert(bidMap, snapshot.bids[..i])
      {
        assert snapshot.bids[..i + 1][..i] == snapshot.bids[..i];
        b := b[snapshot.bids[i].price := snapshot.bids[i].qty];
      }
      assert snapshot.bids[..|snapshot.bids|] == snapshot.bids;
      bidMap := b;
      var a := askMap;
      for i := 0 to |snapshot.asks|
        invariant a == Upsert(askMap, snapshot.asks[..i])
      {
        assert snapshot.asks[..i + 1][..i] == snapshot.asks[..i];
        a := a[snapshot.asks[i].price := snapshot.asks[i].qty];
      }
      assert snapshot.asks[..|snapshot.asks|] == snapshot.asks;
      askMap := a;
      ghost var target := Drain(lastUpdateId, bidMap, askMap, queue);
      while |queue| > 0
        invariant Drain(lastUpdateId, bidMap, askMap, queue) == target
        decreases |queue|
      {
        var update := queue[0];
        queue := queue[1..];
        if update.finalId > lastUpdateId {
          ProcessUpdate(update);
        }
      }
      Render();
      initialized := true;
    }

    /** A diff the current id covers is discarded; otherwise it is queued
        before initialisation and applied after it. */
    method Update(update: DepthUpdate)
      modifies this
      requires Rendered()
      ensures Rendered()
      ensures update.finalId <= old(lastUpdateId) ==>
                lastUpdateId == old(lastUpdateId) && queue == old(queue) &&
                bidMap == old(bidMap) && askMap == old(askMap)
      ensures update.finalId > old(lastUpdateId) && !old(initialized) ==>
                queue == old(queue) + [update] && lastUpdateId == old(lastUpdateId) &&
                bidMap == old(bidMap) && askMap == old(askMap)
      ensures update.finalId > old(lastUpdateId) && old(initialized) ==>
                queue == old(queue) && lastUpdateId == update.finalId &&
                bidMap == ApplyLevels(old(bidMap), update.bids) &&
                askMap == ApplyLevels(old(askMap), update.asks)
      ensures initialized == old(initialized)
      ensures lastUpdateId >= old(lastUpdateId)
    {
      if update.finalId <= lastUpdateId {
        return;
      }
      if !initialized {
        queue := queue + [update];
      } else {
        ProcessUpdate(update);
      }
    }
  }
}
