// Boolean layer masks over a camera's disparity map: mask k marks the pixels
// whose disparity lies within epsilon of k, and later collects the depth
// samples under its marked pixels in ascending order.
module AlphaMaps {
  import opened Wrappers
  import opened GridArithmetic

  /** A decoded PFM map: its size and its samples in file order. */
  datatype Pfm = Pfm(width: nat, height: nat, data: seq<real>)

  /** One mask, `data[x][y]`, and the sorted depth samples of its set cells
      once they are loaded. */
  datatype AlphaMap = AlphaMap(data: seq<seq<bool>>, depth: Option<seq<real>>)

  /** Every row has `height` cells and there are `width` rows. */
  predicate Shaped(m: AlphaMap, width: nat, height: nat) {
    |m.data| == width && forall x :: 0 <= x < width ==> |m.data[x]| == height
  }

  /** `AlphaMap::new`: `width` rows of `height` unset cells, no depth yet. */
  function NewAlphaMap(width: nat, height: nat): (m: AlphaMap)
    ensures Shaped(m, width, height) && m.depth.None?
    ensures forall x, y :: 0 <= x < width && 0 <= y < height ==> !m.data[x][y]
  {
    AlphaMap(seq(width, _ => seq(height, _ => false)), None)
  }

  // ---------------------------------------------------------------------
  // Index arithmetic

  /** `usize::MAX` on a 64-bit target. */
  const UsizeMax: nat := 0xFFFF_FFFF_FFFF_FFFF

  /** `to_xy`: the floor of index / height, computed in floating point in the
      source, is taken as integer division. With a zero height, 0 / 0 is NaN,
      which the cast turns into 0, and any other index divides to infinity,
      which the cast saturates to `usize::MAX`. */
  function ToXY(height: nat, index: nat): (r: (nat, nat))
    ensures height >= 1 ==> r.0 < height
  {
    if height == 0 then (if index == 0 then (0, 0) else (index, UsizeMax))
    else (index % height, index / height)
  }

  /** `to_index`. */
  function ToIndex(height: nat, x: nat, y: nat): nat {
    y * height + x
  }

  /** `to_index` undoes `to_xy` for every height. */
  lemma ToIndexOfToXY(height: nat, index: nat)
    ensures ToIndex(height, ToXY(height, index).0, ToXY(height, index).1) == index
  {
  }

  /** `to_xy` undoes `to_index` for every x inside the height. */
  lemma ToXYOfToIndex(height: nat, x: nat, y: nat)
    requires x < height
    ensures ToXY(height, ToIndex(height, x, y)) == (x, y)
  {
    DivModUnique(y * height + x, height, y, x);
  }

  /** For x inside the height, cell (x, y) has number i exactly when `to_xy`
      sends i to (x, y). */
  lemma CellOfIndex(height: nat, x: nat, y: nat, i: nat)
    requires x < height
    ensures ToIndex(height, x, y) == i <==> ToXY(height, i) == (x, y)
  {
    ToXYOfToIndex(height, x, y);
    ToIndexOfToXY(height, i);
  }

  // ---------------------------------------------------------------------
  // Building the masks

  function Abs(r: real): real {
    if r < 0.0 then -r else r
  }

  function Max(a: nat, b: nat): nat {
    if a < b then b else a
  }

  /** Every sample's (x, y) is a cell of the masks: the source indexes
      `data[x][y]` with x from the row length and y from the column count. */
  predicate IndicesFit(pfm: Pfm) {
    forall i :: 0 <= i < |pfm.data| ==> ToXY(pfm.height, i).0 < pfm.width && ToXY(pfm.height, i).1 < pfm.height
  }

  /** A full map fits its masks only when it is square: `to_xy` takes the
      row from the remainder by the height, but there are `width` rows. A
      taller map sends sample `width` to row `width`, past the last row; a
      wider one sends sample `height * height` to column `height`, past the
      end of a row. The source indexes out of bounds and panics on both. */
  lemma IndicesFitOnlyForSquare(pfm: Pfm)
    requires |pfm.data| == pfm.width * pfm.height >= 1
    requires IndicesFit(pfm)
    ensures pfm.width == pfm.height
  {
    var w, h := pfm.width, pfm.height;
    if h > w {
      TallMapRowPastEnd(w, h);
      assert false;
    } else if w > h {
      WideMapColumnPastEnd(w, h);
      assert false;
    }
  }

  /** In a map taller than wide, sample `width` exists and goes to row `width`. */
  lemma TallMapRowPastEnd(w: nat, h: nat)
    requires h > w >= 1
    ensures w < w * h && ToXY(h, w) == (w, 0)
  {
    MulAtLeast(h - 1, w);
    assert w * h == (h - 1) * w + w;
    DivModUnique(w, h, 0, w);
  }

  /** In a map wider than tall, sample `height * height` exists and goes to
      column `height`. */
  lemma WideMapColumnPastEnd(w: nat, h: nat)
    requires w > h >= 1
    ensures h * h < w * h && ToXY(h, h * h) == (0, h)
  {
    MulAtLeast(w - h, h);
    assert w * h == (w - h) * h + h * h;
    DivModUnique(h * h, h, h, 0);
  }

  /** Cell (x, y) of mask k is set once the first n samples are processed. */
  predicate SetAfter(pfm: Pfm, k: nat, epsilon: real, x: nat, y: nat, n: nat) {
    x < pfm.height && ToIndex(pfm.height, x, y) < n && ToIndex(pfm.height, x, y) < |pfm.data|
    && Abs(pfm.data[ToIndex(pfm.height, x, y)] - k as real) <= epsilon
  }

  /** Masks [lo, hi) are shaped and set exactly where the first n samples say. */
  predicate MasksAfter(maps: seq<AlphaMap>, pfm: Pfm, epsilon: real, lo: nat, hi: nat, n: nat)
    requires lo <= hi <= |maps|
  {
    forall k :: lo <= k < hi ==>
      && Shaped(maps[k], pfm.width, pfm.height) && maps[k].depth.None?
      && forall x, y :: 0 <= x < pfm.width && 0 <= y < pfm.height ==>
           (maps[k].data[x][y] <==> SetAfter(pfm, k, epsilon, x, y, n))
  }

  /** One step of the inner loop: mask m takes sample i into account. */
  lemma {:induction false} MarkStep(maps: seq<AlphaMap>, pfm: Pfm, epsilon: real, i: nat, m: nat)
    requires IndicesFit(pfm) && i < |pfm.data| && m < |maps|
    requires MasksAfter(maps, pfm, epsilon, m, m + 1, i)
    ensures var (x, y) := ToXY(pfm.height, i);
      var next := if Abs(pfm.data[i] - m as real) <= epsilon
                  then maps[m := maps[m].(data := maps[m].data[x := maps[m].data[x][y := true]])]
                  else maps;
      && |next| == |maps|
      && (forall k :: 0 <= k < |maps| && k != m ==> next[k] == maps[k])
      && MasksAfter(next, pfm, epsilon, m, m + 1, i + 1)
  {
    var (xi, yi) := ToXY(pfm.height, i);
    var next := if Abs(pfm.data[i] - m as real) <= epsilon
                then maps[m := maps[m].(data := maps[m].data[xi := maps[m].data[xi][yi := true]])]
                else maps;
    forall x, y | 0 <= x < pfm.width && 0 <= y < pfm.height
      ensures next[m].data[x][y] <==> SetAfter(pfm, m, epsilon, x, y, i + 1)
    {
      if x < pfm.height {
        CellOfIndex(pfm.height, x, y, i);
      }
    }
  }

  /** `AlphaMaps::new`, given the decoded disparity map. */
  method NewAlphaMaps(pfm: Pfm, alphaMapCount: nat, epsilon: real) returns (maps: seq<AlphaMap>)
    requires IndicesFit(pfm)
    ensures |maps| == Max(alphaMapCount, 1)
    ensures forall k :: 0 <= k < |maps| ==>
      && Shaped(maps[k], pfm.width, pfm.height) && maps[k].depth.None?
      && forall x, y :: 0 <= x < pfm.width && 0 <= y < pfm.height ==>
           (maps[k].data[x][y] <==>
              x < pfm.height && ToIndex(pfm.height, x, y) < |pfm.data|
              && Abs(pfm.data[ToIndex(pfm.height, x, y)] - k as real) <= epsilon)
  {
    maps := seq(Max(alphaMapCount, 1), _ => NewAlphaMap(pfm.width, pfm.height));
    for i := 0 to |pfm.data|
      invariant |maps| == Max(alphaMapCount, 1)
      invariant MasksAfter(maps, pfm, epsilon, 0, |maps|, i)
    {
      var disparity := pfm.data[i];
      var (x, y) := ToXY(pfm.height, i);
      for m := 0 to |maps|
        invariant |maps| == Max(alphaMapCount, 1)
        invariant MasksAfter(maps, pfm, epsilon, 0, m, i + 1)
        invariant MasksAfter(maps, pfm, epsilon, m, |maps|, i)
      {
        MarkStep(maps, pfm, epsilon, i, m);
        if Abs(disparity - m as real) <= epsilon {
          maps := maps[m := maps[m].(data := maps[m].data[x := maps[m].data[x][y := true]])];
        }
      }
    }
  }

  // ---------------------------------------------------------------------
  // Visiting the set cells

  /** The set cells of row x, along the row. */
  function RowCells(x: nat, row: seq<bool>): seq<(nat, nat)> {
    if |row| == 0 then []
    else RowCells(x, row[..|row| - 1]) + (if row[|row| - 1] then [(x, |row| - 1)] else [])
  }

  /** The set cells of `data` in the order `for_each_alpha` visits them. */
  function SetCells(data: seq<seq<bool>>): seq<(nat, nat)> {
    if |data| == 0 then [] else SetCells(data[..|data| - 1]) + RowCells(|data| - 1, data[|data| - 1])
  }

  /** Row-major order: by x first, then by y. */
  predicate Before(a: (nat, nat), b: (nat, nat)) {
    a.0 < b.0 || (a.0 == b.0 && a.1 < b.1)
  }

  lemma {:induction false} RowCellsFacts(x: nat, row: seq<bool>)
    ensures forall c :: c in RowCells(x, row) <==> c.0 == x && c.1 < |row| && row[c.1]
    ensures forall i, j :: 0 <= i < j < |RowCells(x, row)| ==> RowCells(x, row)[i].1 < RowCells(x, row)[j].1
  {
    if |row| > 0 {
      var init := row[..|row| - 1];
      RowCellsFacts(x, init);
      forall c: (nat, nat) | c.0 == x && c.1 < |init|
        ensures row[c.1] == init[c.1]
      {
      }
    }
  }

  /** `for_each_alpha` visits every set cell and nothing else, strictly in
      row-major order, so each set cell exactly once. */
  lemma {:induction false} SetCellsFacts(data: seq<seq<bool>>)
    ensures forall c :: c in SetCells(data) <==> c.0 < |data| && c.1 < |data[c.0]| && data[c.0][c.1]
    ensures forall i, j :: 0 <= i < j < |SetCells(data)| ==> Before(SetCells(data)[i], SetCells(data)[j])
  {
    if |data| > 0 {
      var n := |data| - 1;
      var init := data[..n];
      SetCellsFacts(init);
      RowCellsFacts(n, data[n]);
      var a, b := SetCells(init), RowCells(n, data[n]);
      forall i, j | 0 <= i < j < |a + b|
        ensures Before((a + b)[i], (a + b)[j])
      {
        if i < |a| && j >= |a| {
          assert a[i] in a;
          assert b[j - |a|] in b;
        }
      }
      forall c: (nat, nat) ensures c in a + b <==> c.0 < |data| && c.1 < |data[c.0]| && data[c.0][c.1] {
        if c.0 < n {
          assert data[c.0] == init[c.0];
        }
      }
    }
  }

  /** `for_each_alpha`: the cells (x, y) handed to the callback, in call order. */
  method ForEachAlpha(m: AlphaMap) returns (calls: seq<(nat, nat)>)
    ensures calls == SetCells(m.data)
  {
    calls := [];
    for x := 0 to |m.data|
      invariant calls == SetCells(m.data[..x])
    {
      var row := m.data[x];
      assert m.data[..x + 1][..x] == m.data[..x];
      ghost var done := calls;
      for y := 0 to |row|
        invariant calls == done + RowCells(x, row[..y])
      {
        assert row[..y + 1][..y] == row[..y];
        if row[y] {
          calls := calls + [(x, y)];
        }
      }
      assert row[..|row|] == row;
    }
    assert m.data[..|m.data|] == m.data;
  }

  // ---------------------------------------------------------------------
  // Loading the depth samples

  predicate Sorted(s: seq<real>) {
    forall i, j :: 0 <= i < j < |s| ==> s[i] <= s[j]
  }

  /** Insert v into a sorted sequence. */
  function Insert(s: seq<real>, v: real): seq<real> {
    if |s| == 0 then [v] else if v <= s[0] then [v] + s else [s[0]] + Insert(s[1..], v)
  }

  lemma {:induction false} InsertKeepsSorted(s: seq<real>, v: real)
    requires Sorted(s)
    ensures Sorted(Insert(s, v)) && multiset(Insert(s, v)) == multiset(s) + multiset{v}
    ensures |Insert(s, v)| == |s| + 1
  {
    if |s| > 0 && v > s[0] {
      InsertKeepsSorted(s[1..], v);
      assert s == [s[0]] + s[1..];
      var r := Insert(s[1..], v);
      assert forall k :: 0 <= k < |r| ==> s[0] <= r[k] by {
        forall k | 0 <= k < |r| ensures s[0] <= r[k] {
          assert r[k] in multiset(s[1..]) + multiset{v};
          if r[k] in multiset(s[1..]) {
            assert r[k] in s[1..];
          }
        }
      }
    }
  }

  /** `into_sorted_vec` of a binary heap holding the samples pushed. */
  function IntoSortedVec(pushed: seq<real>): (r: seq<real>)
    ensures Sorted(r) && multiset(r) == multiset(pushed) && |r| == |pushed|
  {
    if |pushed| == 0 then []
    else
      var init := pushed[..|pushed| - 1];
      InsertKeepsSorted(IntoSortedVec(init), pushed[|pushed| - 1]);
      assert pushed == init + [pushed[|pushed| - 1]];
      Insert(IntoSortedVec(init), pushed[|pushed| - 1])
  }

  /** The depth samples under the given cells, in visiting order. */
  function Samples(depthPfm: Pfm, cells: seq<(nat, nat)>): seq<real>
    requires forall i :: 0 <= i < |cells| ==> ToIndex(depthPfm.height, cells[i].0, cells[i].1) < |depthPfm.data|
  {
    seq(|cells|, i requires 0 <= i < |cells| => depthPfm.data[ToIndex(depthPfm.height, cells[i].0, cells[i].1)])
  }

  /** Every set cell of every mask has a depth sample. */
  predicate DepthCovers(maps: seq<AlphaMap>, depthPfm: Pfm) {
    forall k, i :: 0 <= k < |maps| && 0 <= i < |SetCells(maps[k].data)| ==>
      ToIndex(depthPfm.height, SetCells(maps[k].data)[i].0, SetCells(maps[k].data)[i].1) < |depthPfm.data|
  }

  /** `load_depth`, given the decoded depth map: each mask with a set cell
      gets its samples sorted ascending; a mask without one keeps its depth. */
  method LoadDepth(maps: seq<AlphaMap>, depthPfm: Pfm) returns (r: seq<AlphaMap>)
    requires DepthCovers(maps, depthPfm)
    ensures |r| == |maps|
    ensures forall k :: 0 <= k < |r| ==>
      && r[k].data == maps[k].data
      && (|SetCells(maps[k].data)| == 0 ==> r[k].depth == maps[k].depth)
      && (|SetCells(maps[k].data)| > 0 ==>
            r[k].depth == Some(IntoSortedVec(Samples(depthPfm, SetCells(maps[k].data)))))
  {
    r := maps;
    for k := 0 to |r|
      invariant |r| == |maps|
      invariant forall j :: k <= j < |r| ==> r[j] == maps[j]
      invariant forall j :: 0 <= j < k ==>
        && r[j].data == maps[j].data
        && (|SetCells(maps[j].data)| == 0 ==> r[j].depth == maps[j].depth)
        && (|SetCells(maps[j].data)| > 0 ==>
              r[j].depth == Some(IntoSortedVec(Samples(depthPfm, SetCells(maps[j].data)))))
    {
      var cells := ForEachAlpha(r[k]);
      var depthValues := [];
      for i := 0 to |cells|
        invariant depthValues == Samples(depthPfm, cells[..i])
      {
        var index := ToIndex(depthPfm.height, cells[i].0, cells[i].1);
        depthValues := depthValues + [depthPfm.data[index]];
      }
      assert cells[..|cells|] == cells;
      if |depthValues| > 0 {
        r := r[k := r[k].(depth := Some(IntoSortedVec(depthValues)))];
      }
    }
  }

  /** A mask `load_depth` gives depth samples to gets one per set cell, so
      never an empty list. */
  lemma LoadedDepthNonEmpty(maps: seq<AlphaMap>, depthPfm: Pfm, k: nat)
    requires DepthCovers(maps, depthPfm) && k < |maps| && |SetCells(maps[k].data)| > 0
    ensures |IntoSortedVec(Samples(depthPfm, SetCells(maps[k].data)))| == |SetCells(maps[k].data)| >= 1
  {
  }
}
