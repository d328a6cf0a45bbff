/**
 * The Initializer module: a stateful module whose single task "initialize"
 * copies the initialisation row of the requested frame into its output
 * socket.  The per-frame table `initData` has one row per frame and
 * `nElmts` elements per row; three setters overwrite it, and changing the
 * frame count resizes it.
 *
 * `T` is the socket element type (the source instantiates it for the eight
 * integer widths, float and double); only copies and fills happen, so the
 * model needs no arithmetic on it.
 */
module Initializer {
  import opened Wrappers

  /** The `invalid_argument` exceptions of the module, with the sizes their messages report. */
  datatype InitializerError =
    | ZeroElements
    | RowLengthMismatch(given: nat, expected: nat)
    | FrameCountMismatch(given: nat, expected: nat)
    | FrameRowLengthMismatch(frame: nat, given: nat, expected: nat)

  /** The status the codelet hands back to the runtime. */
  datatype Status = Success

  /** Every row of `data` holds exactly `width` elements. */
  predicate Rectangular<T>(data: seq<seq<T>>, width: nat) {
    forall f :: 0 <= f < |data| ==> |data[f]| == width
  }

  /** `data` with every element of every row replaced by `val` (the shape is kept). */
  function Filled<T>(data: seq<seq<T>>, val: T): seq<seq<T>> {
    seq(|data|, f requires 0 <= f < |data| => seq(|data[f]|, _ => val))
  }

  /**
   * The table after the frame count becomes `n`: the first `min(|data|, n)`
   * rows are kept, and every row added beyond the old count is a copy of row 0.
   */
  function Resized<T>(data: seq<seq<T>>, n: nat): seq<seq<T>>
    requires |data| > 0
  {
    seq(n, f requires 0 <= f < n => if f < |data| then data[f] else data[0])
  }

  /** `data` whose rows below `upTo` are taken from `rows`. */
  function AssignedBelow<T>(data: seq<seq<T>>, rows: seq<seq<T>>, upTo: nat): seq<seq<T>>
    requires upTo <= |rows| && upTo <= |data|
  {
    seq(|data|, f requires 0 <= f < |data| => if f < upTo then rows[f] else data[f])
  }

  /**
   * The first frame, at or after `from`, whose new row does not have the
   * length of the current row; None when every such row fits.
   */
  function FirstBadRow<T>(rows: seq<seq<T>>, data: seq<seq<T>>, from: nat): (r: Option<nat>)
    requires |rows| == |data| && from <= |rows|
    ensures r.Some? ==> from <= r.value < |rows| && |rows[r.value]| != |data[r.value]|
    ensures r.Some? ==> forall g :: from <= g < r.value ==> |rows[g]| == |data[g]|
    ensures r.None? <==> forall g :: from <= g < |rows| ==> |rows[g]| == |data[g]|
    decreases |rows| - from
  {
    if from == |rows| then None
    else if |rows[from]| != |data[from]| then Some(from)
    else FirstBadRow(rows, data, from + 1)
  }

  class Initializer<T> {
    /** The frame count of the base module (`get_n_frames()`). */
    var nFrames: nat
    /** `init_data`: one row of initialisation data per frame. */
    var initData: seq<seq<T>>
    /** Nanoseconds the codelet busy-waits after its copy. */
    var ns: nat
    /** The element count of the output socket "out" of task "initialize". */
    const nElmts: nat

    ghost predicate Valid()
      reads this
    {
      && nElmts > 0
      && nFrames > 0
      && |initData| == nFrames
      && Rectangular(initData, nElmts)
    }

    /** The body of the C++ constructor once `n_elmts` has been checked. */
    constructor Init(nElmts: nat, ns: nat, zero: T)
      requires nElmts > 0
      ensures Valid()
      ensures this.nElmts == nElmts && this.ns == ns && nFrames == 1
      ensures initData == [seq(nElmts, _ => zero)]
    {
      this.nElmts := nElmts;
      this.ns := ns;
      nFrames := 1;
      initData := [seq(nElmts, _ => zero)];
    }

    /** The copy constructor `Initializer(const Initializer&)` used by clone. */
    constructor Copy(other: Initializer<T>)
      requires other.Valid()
      ensures Valid()
      ensures nElmts == other.nElmts && ns == other.ns
      ensures nFrames == other.nFrames && initData == other.initData
    {
      nElmts := other.nElmts;
      ns := other.ns;
      nFrames := other.nFrames;
      initData := other.initData;
    }

    /**
     * The C++ constructor: refuses an empty output socket, otherwise gives a
     * table of one frame (the base module's default) holding `nElmts` zeros.
     */
    static method New(nElmts: nat, ns: nat, zero: T) returns (r: Result<Initializer<T>, InitializerError>)
      ensures nElmts == 0 ==> r == Err(ZeroElements)
      ensures nElmts > 0 <==> r.Ok?
      ensures r.Ok? ==> fresh(r.value) && r.value.Valid()
      ensures r.Ok? ==> r.value.nElmts == nElmts && r.value.ns == ns && r.value.nFrames == 1
      ensures r.Ok? ==> r.value.initData == [seq(nElmts, _ => zero)]
    {
      if nElmts == 0 {
        return Err(ZeroElements);
      }
      var m := new Initializer.Init(nElmts, ns, zero);
      r := Ok(m);
    }

    /** An independent copy: same table and settings, no shared state. */
    method Clone() returns (c: Initializer<T>)
      requires Valid()
      ensures fresh(c) && c.Valid()
      ensures c.nElmts == nElmts && c.ns == ns && c.nFrames == nFrames && c.initData == initData
    {
      c := new Initializer.Copy(this);
    }

    function GetNs(): (r: nat)
      reads this
      ensures r == ns
    {
      ns
    }

    method SetNs(ns: nat)
      modifies this
      ensures GetNs() == ns
      ensures nFrames == old(nFrames) && initData == old(initData)
    {
      this.ns := ns;
    }

    /** `get_init_data`: the table, one row of `nElmts` elements per frame. */
    function GetInitData(): (r: seq<seq<T>>)
      reads this
      ensures r == initData
      ensures Valid() ==> |r| == nFrames && Rectangular(r, nElmts)
    {
      initData
    }

    /**
     * `set_init_data(row)`: every frame receives a copy of `row`, which must
     * have the length of the current rows.
     */
    method SetInitDataRow(row: seq<T>) returns (r: Outcome<InitializerError>)
      requires Valid()
      modifies this
      ensures Valid() && nFrames == old(nFrames) && ns == old(ns)
      ensures |row| != nElmts ==> r == Fail(RowLengthMismatch(|row|, nElmts)) && initData == old(initData)
      ensures |row| == nElmts ==> r == Pass && forall f :: 0 <= f < nFrames ==> initData[f] == row
    {
      if |row| != |initData[0]| {
        return Fail(RowLengthMismatch(|row|, |initData[0]|));
      }
      var f := 0;
      while f < |initData|
        invariant 0 <= f <= |initData| == |old(initData)| == nFrames
        invariant forall g :: 0 <= g < f ==> initData[g] == row
        invariant forall g :: f <= g < |initData| ==> initData[g] == old(initData)[g]
        invariant nFrames == old(nFrames) && ns == old(ns)
      {
        initData := initData[f := row];
        f := f + 1;
      }
      r := Pass;
    }

    /**
     * `set_init_data(matrix)`: refuses a matrix whose row count is not the
     * frame count; otherwise rows are checked and assigned frame by frame, so
     * a row of the wrong length stops the loop with the earlier frames
     * already overwritten and the later ones untouched.
     */
    method SetInitDataMatrix(rows: seq<seq<T>>) returns (r: Outcome<InitializerError>)
      requires Valid()
      modifies this
      ensures Valid() && nFrames == old(nFrames) && ns == old(ns)
      ensures |rows| != old(nFrames) ==>
        r == Fail(FrameCountMismatch(|rows|, old(nFrames))) && initData == old(initData)
      ensures |rows| == old(nFrames) ==>
        match FirstBadRow(rows, old(initData), 0)
        case None => r == Pass && initData == rows
        case Some(f) =>
          && r == Fail(FrameRowLengthMismatch(f, |rows[f]|, nElmts))
          && initData == AssignedBelow(old(initData), rows, f)
    {
      if |rows| != nFrames {
        return Fail(FrameCountMismatch(|rows|, nFrames));
      }
      var f := 0;
      while f < |rows|
        invariant 0 <= f <= |rows| == |initData| == nFrames
        invariant Rectangular(initData, nElmts)
        invariant forall g :: 0 <= g < f ==> |rows[g]| == |old(initData)[g]|
        invariant initData == AssignedBelow(old(initData), rows, f)
        invariant nFrames == old(nFrames) && ns == old(ns)
      {
        if |rows[f]| != |initData[f]| {
          r := Fail(FrameRowLengthMismatch(f, |rows[f]|, |initData[f]|));
          assert FirstBadRow(rows, old(initData), f) == Some(f);
          FirstBadRowSkips(rows, old(initData), 0, f);
          return;
        }
        initData := initData[f := rows[f]];
        f := f + 1;
      }
      FirstBadRowSkips(rows, old(initData), 0, f);
      r := Pass;
    }

    /** `set_init_data(val)`: every element of every row becomes `val`. */
    method SetInitDataValue(val: T)
      requires Valid()
      modifies this
      ensures Valid() && nFrames == old(nFrames) && ns == old(ns)
      ensures initData == Filled(old(initData), val)
    {
      var f := 0;
      while f < |initData|
        invariant 0 <= f <= |initData| == |old(initData)|
        invariant forall g :: 0 <= g < f ==> initData[g] == seq(|old(initData)[g]|, _ => val)
        invariant forall g :: f <= g < |initData| ==> initData[g] == old(initData)[g]
        invariant nFrames == old(nFrames) && ns == old(ns)
      {
        initData := initData[f := seq(|initData[f]|, _ => val)];
        f := f + 1;
      }
      FilledShape(old(initData), val, nElmts);
    }

    /**
     * `set_n_frames(n)`: nothing happens when the count is unchanged;
     * otherwise the table is truncated or extended to `n` rows (the base
     * vector resize), and every added row is then filled with row 0.
     */
    method SetNFrames(n: nat)
      requires Valid()
      requires n > 0
      modifies this
      ensures Valid() && nFrames == n && ns == old(ns)
      ensures initData == Resized(old(initData), n)
    {
      var oldN := nFrames;
      if oldN != n {
        nFrames := n;
        initData := if n <= |initData| then initData[..n] else initData + seq(n - |initData|, _ => []);
        var f := oldN;
        while f < n
          invariant |initData| == n && |old(initData)| == oldN > 0
          invariant forall g :: 0 <= g < n && g < oldN ==> initData[g] == old(initData)[g]
          invariant oldN <= f && (f <= n || f == oldN)
          invariant forall g :: oldN <= g < f ==> initData[g] == old(initData)[0]
          invariant forall g :: f <= g < n && oldN <= g ==> initData[g] == []
          invariant nFrames == n && ns == old(ns)
        {
          initData := initData[f := initData[0]];
          f := f + 1;
        }
      }
      ResizedShape(old(initData), n, nElmts);
    }

    /**
     * `_initialize(out, frame_id)`: copies the row of frame `frameId` to the
     * front of `out`; nothing else in `out` and nothing in the module changes.
     */
    method Initialize(out: array<T>, frameId: nat)
      requires Valid()
      requires frameId < nFrames && nElmts <= out.Length
      modifies out
      ensures out[..nElmts] == initData[frameId]
      ensures out[nElmts..] == old(out[nElmts..])
    {
      var row := initData[frameId];
      var i := 0;
      while i < |row|
        invariant 0 <= i <= |row| == nElmts
        invariant forall k :: 0 <= k < i ==> out[k] == row[k]
        invariant forall k :: i <= k < out.Length ==> out[k] == old(out[k])
      {
        out[i] := row[i];
        i := i + 1;
      }
    }

    /** The codelet of task "initialize": the copy, then SUCCESS. */
    method Codelet(out: array<T>, frameId: nat) returns (status: Status)
      requires Valid()
      requires frameId < nFrames && nElmts <= out.Length
      modifies out
      ensures status == Success
      ensures out[..nElmts] == initData[frameId]
      ensures out[nElmts..] == old(out[nElmts..])
    {
      Initialize(out, frameId);
      status := Success;
    }
  }

  // ---------------------------------------------------------------- lemmas

  /** The frames skipped by the search from `from` all fit, so the search from `from` equals the search from `to`. */
  lemma {:induction false} FirstBadRowSkips<T>(rows: seq<seq<T>>, data: seq<seq<T>>, from: nat, to: nat)
    requires |rows| == |data| && from <= to <= |rows|
    requires forall g :: from <= g < to ==> |rows[g]| == |data[g]|
    ensures FirstBadRow(rows, data, from) == FirstBadRow(rows, data, to)
    decreases |rows| - from
  {
    if from < to {
      FirstBadRowSkips(rows, data, from + 1, to);
    }
  }

  /** Filling keeps the table rectangular. */
  lemma FilledShape<T>(data: seq<seq<T>>, val: T, width: nat)
    requires Rectangular(data, width)
    ensures |Filled(data, val)| == |data| && Rectangular(Filled(data, val), width)
  {
  }

  /** Resizing keeps the table rectangular and gives it `n` rows. */
  lemma ResizedShape<T>(data: seq<seq<T>>, n: nat, width: nat)
    requires |data| > 0 && Rectangular(data, width)
    ensures |Resized(data, n)| == n && Rectangular(Resized(data, n), width)
  {
  }

  /** Setting the frame count to its current value changes nothing. */
  lemma ResizeToSameCount<T>(data: seq<seq<T>>)
    requires |data| > 0
    ensures Resized(data, |data|) == data
  {
  }

  /** Growing the table and then shrinking it back restores the original table. */
  lemma ResizeGrowShrinkRoundTrip<T>(data: seq<seq<T>>, m: nat)
    requires 0 < |data| <= m
    ensures Resized(Resized(data, m), |data|) == data
  {
  }

  /**
   * Once the table has been grown, a further resize gives what a single
   * resize of the original would: the rows added by growth are copies of
   * row 0, exactly what a later growth would add.
   */
  lemma ResizeAfterGrowth<T>(data: seq<seq<T>>, m: nat, n: nat)
    requires 0 < |data| <= m
    ensures Resized(Resized(data, m), n) == Resized(data, n)
  {
    var once, twice := Resized(data, n), Resized(Resized(data, m), n);
    assert |once| == |twice| == n;
    forall f | 0 <= f < n
      ensures twice[f] == once[f]
    {
      if f >= m {
        assert twice[f] == Resized(data, m)[0] == data[0];
      }
    }
  }

  /** Shrinking loses rows: they come back as copies of row 0 when the table is grown again. */
  lemma ResizeShrinkGrow<T>(data: seq<seq<T>>, m: nat)
    requires 0 < m < |data|
    ensures |Resized(Resized(data, m), |data|)| == |data|
    ensures forall f :: 0 <= f < m ==> Resized(Resized(data, m), |data|)[f] == data[f]
    ensures forall f :: m <= f < |data| ==> Resized(Resized(data, m), |data|)[f] == data[0]
  {
  }

  /** Filling twice with the same value is filling once. */
  lemma FillIdempotent<T>(data: seq<seq<T>>, val: T)
    ensures Filled(Filled(data, val), val) == Filled(data, val)
  {
  }

  /** A resize after a fill gives a filled table of the new count. */
  lemma FillThenResize<T>(data: seq<seq<T>>, val: T, n: nat)
    requires |data| > 0
    ensures Resized(Filled(data, val), n) == Filled(Resized(data, n), val)
  {
  }

  /** When every new row fits, assigning all of them yields the new matrix. */
  lemma AssignedAll<T>(data: seq<seq<T>>, rows: seq<seq<T>>)
    requires |rows| == |data|
    ensures AssignedBelow(data, rows, |rows|) == rows
  {
  }

  // ---------------------------------------------------------------- scenarios

  /**
   * Four elements, two frames, rows [1,2,3,4] and [5,6,7,8]: frame 0 yields
   * the first row and frame 1 the second; after filling with 9 a frame
   * yields [9,9,9,9]; a three-row matrix is refused and changes nothing.
   */
  method Scenarios()
  {
    var r := Initializer<int>.New(4, 0, 0);
    assert r.Ok?;
    var m := r.value;
    m.SetNFrames(2);
    var ok := m.SetInitDataMatrix([[1, 2, 3, 4], [5, 6, 7, 8]]);
    assert ok == Pass;

    var out := new int[4];
    var status := m.Codelet(out, 0);
    assert out[..] == out[..4] == [1, 2, 3, 4];
    status := m.Codelet(out, 1);
    assert out[..] == out[..4] == [5, 6, 7, 8];

    var before := m.initData;
    var bad := m.SetInitDataMatrix([[1, 2, 3, 4], [5, 6, 7, 8], [9, 9, 9, 9]]);
    assert bad == Fail(FrameCountMismatch(3, 2)) && m.initData == before;

    m.SetInitDataValue(9);
    status := m.Codelet(out, 1);
    assert out[..] == out[..4] == [9, 9, 9, 9];

    var c := m.Clone();
    c.SetInitDataValue(0);
    assert m.initData == Filled(before, 9);
  }
}
