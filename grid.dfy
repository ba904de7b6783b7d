/**
 * Two-dimensional grids through the C interface
 * (c_datablock_put_double_grid, c_datablock_get_double_grid,
 * allocate_2d_double and deallocate_2d_double in
 * cosmosis/datablock/c_datablock.cc).
 *
 * A grid is stored as three double vectors, x, y and the table z flattened
 * row-major, plus a sentinel string under "_cosmosis_order_<z>" recording
 * the order "<x>_cosmosis_order_<y>". A reader that asks for the axes the
 * other way round gets the transposed table; a reader whose names match
 * neither order gets DBS_WRONG_VALUE_TYPE.
 */
module GridCodec {
  import opened Wrappers
  import opened Store
  import opened CDatablock

  /** A decoded grid: the x axis, the y axis and the |xs| × |ys| table. */
  datatype Grid = Grid(xs: seq<Float64>, ys: seq<Float64>, z: seq<seq<Float64>>)

  /** How a flat vector holds the table a reader asked for: in the stored order, or with the axes swapped. */
  datatype Orientation = Direct | Transposed

  /** A table of nx rows of ny entries each. */
  predicate IsRect(z: seq<seq<Float64>>, nx: int, ny: int)
  {
    |z| == nx && forall i :: 0 <= i < |z| ==> |z[i]| == ny
  }

  // ---------------------------------------------------------------------------
  // Flat layout
  // ---------------------------------------------------------------------------

  /** The rows of a table laid end to end (row-major order). */
  function Flatten(z: seq<seq<Float64>>): (r: seq<Float64>)
    ensures z != [] ==> z[0] <= r
    ensures z != [] ==> |z[|z| - 1]| <= |r| && r[|r| - |z[|z| - 1]|..] == z[|z| - 1]
  {
    if z == [] then [] else Flatten(z[..|z| - 1]) + z[|z| - 1]
  }

  /** Position of entry (i, j) of an nx × ny table in the flat vector. */
  function Index(o: Orientation, i: int, j: int, nx: int, ny: int): int
  {
    match o
    case Direct => i * ny + j
    case Transposed => j * nx + i
  }

  lemma {:induction false} MulMonotone(a: int, b: int, c: int)
    requires 0 <= a <= b && 0 <= c
    ensures 0 <= a * c <= b * c
    decreases b - a
  {
    if a < b {
      MulMonotone(a, b - 1, c);
      assert (b - 1) * c + c == b * c;
    }
  }

  lemma RowMajorBound(i: int, j: int, n: int, m: int)
    requires 0 <= i < n && 0 <= j < m
    ensures 0 <= i * m + j < n * m
  {
    MulMonotone(i, i, m);
    MulMonotone(i + 1, n, m);
    assert i * m + j < i * m + m == (i + 1) * m;
  }

  /** Every position an nx × ny table reads lies in [0, nx*ny). */
  lemma IndexInBounds(o: Orientation, i: int, j: int, nx: int, ny: int)
    requires 0 <= i < nx && 0 <= j < ny
    ensures 0 <= Index(o, i, j, nx, ny) < nx * ny
  {
    match o
    case Direct => RowMajorBound(i, j, nx, ny);
    case Transposed => RowMajorBound(j, i, ny, nx);
  }

  /** The last entry of the table is read from position nx*ny - 1 in either orientation. */
  lemma LastIndex(o: Orientation, nx: int, ny: int)
    requires 0 < nx && 0 < ny
    ensures Index(o, nx - 1, ny - 1, nx, ny) == nx * ny - 1
  {
  }

  /** In a table with more entries than n, the last entry sits at or after position n. */
  lemma LastIndexPast(o: Orientation, nx: nat, ny: nat, n: nat)
    requires n < nx * ny
    ensures n <= Index(o, nx - 1, ny - 1, nx, ny) < nx * ny
  {
    LastIndex(o, nx, ny);
  }

  /** Flattening a table of rows of ny entries gives |z|*ny entries. */
  lemma {:induction false} FlattenLength(z: seq<seq<Float64>>, ny: nat)
    requires IsRect(z, |z|, ny)
    ensures |Flatten(z)| == |z| * ny
  {
    if z != [] {
      var n := |z| - 1;
      assert IsRect(z[..n], n, ny);
      FlattenLength(z[..n], ny);
      assert n * ny + ny == |z| * ny;
    }
  }

  /** Entry (i, j) of a table of rows of ny entries sits at position i*ny + j of its flattening. */
  lemma {:induction false} FlattenAt(z: seq<seq<Float64>>, ny: nat, i: int, j: int)
    requires IsRect(z, |z|, ny) && 0 <= i < |z| && 0 <= j < ny
    ensures 0 <= Index(Direct, i, j, |z|, ny) < |Flatten(z)|
    ensures Flatten(z)[Index(Direct, i, j, |z|, ny)] == z[i][j]
  {
    var n := |z| - 1;
    var front := z[..n];
    assert IsRect(front, n, ny);
    FlattenLength(front, ny);
    FlattenLength(z, ny);
    RowMajorBound(i, j, |z|, ny);
    assert Flatten(z) == Flatten(front) + z[n];
    if i < n {
      FlattenAt(front, ny, i, j);
      assert z[i] == front[i];
    } else {
      assert Index(Direct, i, j, |z|, ny) == |Flatten(front)| + j;
    }
  }

  /** The nx × ny table a flat vector holds in the given orientation. */
  function Unflatten(flat: seq<Float64>, nx: nat, ny: nat, o: Orientation): (z: seq<seq<Float64>>)
    requires nx * ny <= |flat|
    ensures IsRect(z, nx, ny)
  {
    seq(nx, i requires 0 <= i < nx =>
      seq(ny, j requires 0 <= j < ny =>
        IndexInBounds(o, i, j, nx, ny);
        flat[Index(o, i, j, nx, ny)]))
  }

  /** Entry (i, j) of the table is the flat entry at Index(o, i, j, nx, ny). */
  lemma UnflattenAt(flat: seq<Float64>, nx: nat, ny: nat, o: Orientation, i: int, j: int)
    requires nx * ny <= |flat| && 0 <= i < nx && 0 <= j < ny
    ensures 0 <= Index(o, i, j, nx, ny) < |flat|
    ensures Unflatten(flat, nx, ny, o)[i][j] == flat[Index(o, i, j, nx, ny)]
  {
    IndexInBounds(o, i, j, nx, ny);
  }

  /** The transpose of a table with ny columns: ny rows of |z| entries. */
  function Transpose(z: seq<seq<Float64>>, ny: nat): (t: seq<seq<Float64>>)
    requires IsRect(z, |z|, ny)
    ensures IsRect(t, ny, |z|)
    ensures forall i, j :: 0 <= i < ny && 0 <= j < |z| ==> t[i][j] == z[j][i]
  {
    seq(ny, i requires 0 <= i < ny => seq(|z|, j requires 0 <= j < |z| => z[j][i]))
  }

  /** Reading a flattened table back in the stored order gives the table. */
  lemma FlattenDirectRoundTrip(z: seq<seq<Float64>>, nx: nat, ny: nat)
    requires IsRect(z, nx, ny)
    ensures nx * ny == |Flatten(z)|
    ensures Unflatten(Flatten(z), nx, ny, Direct) == z
  {
    FlattenLength(z, ny);
    var u := Unflatten(Flatten(z), nx, ny, Direct);
    forall i | 0 <= i < nx ensures u[i] == z[i] {
      forall j | 0 <= j < ny ensures u[i][j] == z[i][j] {
        FlattenAt(z, ny, i, j);
        UnflattenAt(Flatten(z), nx, ny, Direct, i, j);
      }
    }
  }

  /** Reading a flattened table back with the axes swapped gives its transpose. */
  lemma FlattenTransposedRoundTrip(z: seq<seq<Float64>>, nx: nat, ny: nat)
    requires IsRect(z, nx, ny)
    ensures ny * nx == |Flatten(z)|
    ensures Unflatten(Flatten(z), ny, nx, Transposed) == Transpose(z, ny)
  {
    FlattenLength(z, ny);
    var u := Unflatten(Flatten(z), ny, nx, Transposed);
    var t := Transpose(z, ny);
    forall i | 0 <= i < ny ensures u[i] == t[i] {
      forall j | 0 <= j < nx ensures u[i][j] == t[i][j] {
        FlattenAt(z, ny, j, i);
        UnflattenAt(Flatten(z), ny, nx, Transposed, i, j);
        assert Index(Transposed, i, j, ny, nx) == Index(Direct, j, i, nx, ny);
      }
    }
  }

  // ---------------------------------------------------------------------------
  // The order sentinel
  // ---------------------------------------------------------------------------

  const OrderMarker: string := "_cosmosis_order_"

  /** The name under which the order of table `nameZ` is recorded. */
  function SentinelKey(nameZ: string): string
  {
    OrderMarker + nameZ
  }

  /** The order string for axes `nameX` (rows) and `nameY` (columns). */
  function SentinelValue(nameX: string, nameY: string): string
  {
    nameX + OrderMarker + nameY
  }

  /** The orientation a stored sentinel gives a reader of axes (nameX, nameY): the stored order is tried first, then the swapped one. */
  function OrderOf(sentinel: string, nameX: string, nameY: string): (o: Option<Orientation>)
    ensures o == Some(Direct) <==> sentinel == CString(SentinelValue(nameX, nameY))
    ensures o == Some(Transposed) <==>
      sentinel != CString(SentinelValue(nameX, nameY)) && sentinel == CString(SentinelValue(nameY, nameX))
  {
    if sentinel == CString(SentinelValue(nameX, nameY)) then Some(Direct)
    else if sentinel == CString(SentinelValue(nameY, nameX)) then Some(Transposed)
    else None
  }

  /** Distinct axis names of equal length give distinct sentinels in the two orders. */
  lemma SentinelsDifferForEqualLengths(a: string, b: string)
    requires a != b && |a| == |b|
    ensures SentinelValue(a, b) != SentinelValue(b, a)
  {
    assert SentinelValue(a, b)[..|a|] == a;
    assert SentinelValue(b, a)[..|a|] == b;
  }

  /** Axis names that contain the marker can make both orders produce the same sentinel, so the swapped reading cannot be told apart. */
  lemma SentinelAmbiguous(a: string)
    ensures var b := a + OrderMarker + a;
      a != b && SentinelValue(a, b) == SentinelValue(b, a)
  {
    var m := OrderMarker;
    assert a + m + (a + m + a) == (a + m + a) + m + a;
  }

  // ---------------------------------------------------------------------------
  // Writing a grid
  // ---------------------------------------------------------------------------

  /**
   * c_datablock_put_double_grid: put x, put y, put the flattened table, put
   * the sentinel; the first failure is returned and earlier puts stay in
   * the store.
   */
  function GridPut(store: Sections, section: Option<CText>,
                   nameX: Option<CText>, x: Option<Value>, nx: int,
                   nameY: Option<CText>, y: Option<Value>, ny: int,
                   nameZ: Option<CText>, z: seq<seq<Float64>>): (r: Step)
    ensures r.status == Success ==>
      && section.Some? && nameX.Some? && x.Some? && nameY.Some? && y.Some? && nameZ.Some? && 0 <= nx && 0 <= ny
      && EntryAt(r.store, section.value, SentinelKey(nameZ.value)) == Some(Str(CString(SentinelValue(nameX.value, nameY.value))))
  {
    var s2 := AxesPut(store, section, nameX, x, nx, nameY, y, ny);
    if s2.status != Success then s2
    else TablePut(s2.store, section, nameX, nameY, nameZ, z)
  }

  /** The first two puts of a grid: x, then y unless x failed. */
  function AxesPut(store: Sections, section: Option<CText>,
                   nameX: Option<CText>, x: Option<Value>, nx: int,
                   nameY: Option<CText>, y: Option<Value>, ny: int): (r: Step)
    ensures r.status == Success ==> section.Some? && nameX.Some? && x.Some? && nameY.Some? && y.Some? && 0 <= nx && 0 <= ny
  {
    var s1 := EntryWrite(store, section, nameX, x, nx < 0, false);
    if s1.status != Success then s1
    else EntryWrite(s1.store, section, nameY, y, ny < 0, false)
  }

  /** The last two puts of a grid: the flattened table, then its sentinel unless the table failed. */
  function TablePut(store: Sections, section: Option<CText>, nameX: Option<CText>, nameY: Option<CText>,
                    nameZ: Option<CText>, z: seq<seq<Float64>>): (r: Step)
    requires nameX.Some? && nameY.Some?
    ensures r.status == Success ==>
      && section.Some? && nameZ.Some?
      && EntryAt(r.store, section.value, SentinelKey(nameZ.value)) == Some(Str(CString(SentinelValue(nameX.value, nameY.value))))
  {
    var s3 := EntryWrite(store, section, nameZ, Some(DoubleArr(Flatten(z))), false, false);
    if s3.status != Success then s3
    else EntryWrite(s3.store, section, Some(SentinelKey(nameZ.value)),
                    StringPayload(Some(SentinelValue(nameX.value, nameY.value))), false, false)
  }

  /** A grid put succeeds only if the two axes, the table and the sentinel went under four distinct new names. */
  lemma {:induction false} GridPutNames(store: Sections, section: CText, nameX: CText, x: Value, nx: int,
                                        nameY: CText, y: Value, ny: int, nameZ: CText, z: seq<seq<Float64>>)
    requires GridPut(store, Some(section), Some(nameX), Some(x), nx, Some(nameY), Some(y), ny, Some(nameZ), z).status == Success
    ensures 0 <= nx && 0 <= ny
    ensures && EntryAt(store, section, nameX).None? && EntryAt(store, section, nameY).None?
            && EntryAt(store, section, nameZ).None? && EntryAt(store, section, SentinelKey(nameZ)).None?
    ensures && nameX != nameY && nameX != nameZ && nameY != nameZ
            && SentinelKey(nameZ) != nameX && SentinelKey(nameZ) != nameY && SentinelKey(nameZ) != nameZ
  {
    var s1 := Put(store, section, nameX, x);
    var s2 := Put(s1.store, section, nameY, y);
    var s3 := Put(s2.store, section, nameZ, DoubleArr(Flatten(z)));
    var key := SentinelKey(nameZ);
    PutThenGet(store, section, nameX, x);
    PutThenGet(s1.store, section, nameY, y);
    PutThenGet(s2.store, section, nameZ, DoubleArr(Flatten(z)));
    PutThenGet(s3.store, section, key, Str(CString(SentinelValue(nameX, nameY))));
    assert EntryAt(s1.store, section, nameX).Some?;
    assert nameY != nameX;
    assert EntryAt(s2.store, section, nameX).Some? && EntryAt(s2.store, section, nameY).Some?;
    assert nameZ != nameX && nameZ != nameY;
    assert EntryAt(s3.store, section, nameX).Some? && EntryAt(s3.store, section, nameY).Some?;
    assert key != nameX && key != nameY && key != nameZ;
  }

  // ---------------------------------------------------------------------------
  // Reading a grid
  // ---------------------------------------------------------------------------

  /** What a grid read as written can come to: a grid, a status, or a read past the end of the flat table at some position. */
  datatype GridRead = Decoded(grid: Grid) | Refused(status: Status) | ReadsPast(position: int)

  /** The fetches of a grid read, in order: x, y, the flat table and the sentinel; the first failure stops the read. */
  function Fetch(store: Option<Sections>, section: Option<CText>, nameX: Option<CText>, nameY: Option<CText>, nameZ: Option<CText>):
    (r: Result<(seq<Float64>, seq<Float64>, seq<Float64>, string), Status>)
    ensures r.Ok? ==> store.Some? && section.Some? && nameX.Some? && nameY.Some? && nameZ.Some?
    ensures r.Ok? ==>
      && EntryAt(store.value, section.value, nameX.value) == Some(DoubleArr(r.value.0))
      && EntryAt(store.value, section.value, nameY.value) == Some(DoubleArr(r.value.1))
      && EntryAt(store.value, section.value, nameZ.value) == Some(DoubleArr(r.value.2))
    ensures r.Err? ==> r.error != Success
  {
    match FetchAxes(store, section, nameX, nameY)
    case Err(e) => Err(e)
    case Ok((xs, ys)) =>
      match FetchTable(store, section, nameZ)
      case Err(e) => Err(e)
      case Ok((flat, sentinel)) => Ok((xs, ys, flat, sentinel))
  }

  /** The first two reads: both axes. */
  function FetchAxes(store: Option<Sections>, section: Option<CText>, nameX: Option<CText>, nameY: Option<CText>):
    (r: Result<(seq<Float64>, seq<Float64>), Status>)
    ensures r.Ok? ==> store.Some? && section.Some? && nameX.Some? && nameY.Some?
    ensures r.Ok? ==>
      && EntryAt(store.value, section.value, nameX.value) == Some(DoubleArr(r.value.0))
      && EntryAt(store.value, section.value, nameY.value) == Some(DoubleArr(r.value.1))
    ensures r.Err? ==> r.error != Success
  {
    var rx := EntryView(store, section, nameX, true, true, DoubleArrayType);
    if rx.Err? then Err(rx.error)
    else
      var ry := EntryView(store, section, nameY, true, true, DoubleArrayType);
      if ry.Err? then Err(ry.error)
      else Ok((rx.value.doubles, ry.value.doubles))
  }

  /** The last two reads: the flattened table and its sentinel string, as strdup copies it. */
  function FetchTable(store: Option<Sections>, section: Option<CText>, nameZ: Option<CText>):
    (r: Result<(seq<Float64>, string), Status>)
    ensures r.Ok? ==> store.Some? && section.Some? && nameZ.Some?
    ensures r.Ok? ==> EntryAt(store.value, section.value, nameZ.value) == Some(DoubleArr(r.value.0))
    ensures r.Err? ==> r.error != Success
  {
    var rz := EntryView(store, section, nameZ, true, true, DoubleArrayType);
    if rz.Err? then Err(rz.error)
    else
      var rs := EntryGet(store, section, Some(SentinelKey(nameZ.value)), true, StringType);
      if rs.Err? then Err(rs.error)
      else Ok((rz.value.doubles, CString(rs.value.s)))
  }

  /**
   * c_datablock_get_double_grid as written: when the sentinel matches, the
   * table is read from the flat vector without checking that the vector has
   * nx*ny entries.
   */
  function GridDecodeAsWritten(store: Option<Sections>, section: Option<CText>, nameX: Option<CText>, nameY: Option<CText>, nameZ: Option<CText>): (r: GridRead)
    ensures r.Decoded? ==> IsRect(r.grid.z, |r.grid.xs|, |r.grid.ys|)
    ensures r.Refused? ==> r.status != Success
    ensures r.ReadsPast? ==> var f := Fetch(store, section, nameX, nameY, nameZ);
      f.Ok? && |f.value.2| <= r.position < |f.value.0| * |f.value.1|
  {
    match Fetch(store, section, nameX, nameY, nameZ)
    case Err(st) => Refused(st)
    case Ok((xs, ys, flat, sentinel)) =>
      match OrderOf(sentinel, nameX.value, nameY.value)
      case None => Refused(WrongValueType)
      case Some(o) =>
        if |flat| < |xs| * |ys| then
          LastIndexPast(o, |xs|, |ys|, |flat|);
          ReadsPast(Index(o, |xs| - 1, |ys| - 1, |xs|, |ys|))
        else Decoded(Grid(xs, ys, Unflatten(flat, |xs|, |ys|, o)))
  }

  /** c_datablock_get_double_grid with the table length checked: a flat vector shorter than nx*ny gives DBS_SIZE_INSUFFICIENT. */
  function GridDecode(store: Option<Sections>, section: Option<CText>, nameX: Option<CText>, nameY: Option<CText>, nameZ: Option<CText>): (r: Result<Grid, Status>)
    ensures r.Ok? ==> IsRect(r.value.z, |r.value.xs|, |r.value.ys|)
    ensures r.Err? ==> r.error != Success
  {
    match Fetch(store, section, nameX, nameY, nameZ)
    case Err(st) => Err(st)
    case Ok((xs, ys, flat, sentinel)) => DecodeParts(xs, ys, flat, sentinel, nameX.value, nameY.value)
  }

  /** The corrected read in two stages: the four fetches, then the decoding of what they gave. */
  lemma GridDecodeStages(store: Option<Sections>, section: Option<CText>, nameX: Option<CText>, nameY: Option<CText>, nameZ: Option<CText>)
    ensures var f := Fetch(store, section, nameX, nameY, nameZ);
      && (f.Err? ==> GridDecode(store, section, nameX, nameY, nameZ) == Err(f.error))
      && (f.Ok? ==> GridDecode(store, section, nameX, nameY, nameZ)
                      == DecodeParts(f.value.0, f.value.1, f.value.2, f.value.3, nameX.value, nameY.value))
  {
  }

  /** What the corrected read makes of the four vectors it fetched. */
  function DecodeParts(xs: seq<Float64>, ys: seq<Float64>, flat: seq<Float64>, sentinel: string, nameX: string, nameY: string): (r: Result<Grid, Status>)
    ensures r.Ok? ==> r.value.xs == xs && r.value.ys == ys && IsRect(r.value.z, |xs|, |ys|)
    ensures r.Err? ==> r.error != Success
  {
    match OrderOf(sentinel, nameX, nameY)
    case None => Err(WrongValueType)
    case Some(o) =>
      if |flat| < |xs| * |ys| then Err(SizeInsufficient)
      else Ok(Grid(xs, ys, Unflatten(flat, |xs|, |ys|, o)))
  }

  /**
   * The as-written read goes past the end of the flat vector exactly when
   * the corrected read reports DBS_SIZE_INSUFFICIENT, and the two agree on
   * every other input.
   */
  lemma GridDecodeCorrection(store: Option<Sections>, section: Option<CText>, nameX: Option<CText>, nameY: Option<CText>, nameZ: Option<CText>)
    ensures match GridDecodeAsWritten(store, section, nameX, nameY, nameZ)
      case Decoded(g) => GridDecode(store, section, nameX, nameY, nameZ) == Ok(g)
      case Refused(st) => GridDecode(store, section, nameX, nameY, nameZ) == Err(st)
      case ReadsPast(k) =>
        GridDecode(store, section, nameX, nameY, nameZ) == Err(SizeInsufficient)
        && Fetch(store, section, nameX, nameY, nameZ).Ok?
        && k >= |Fetch(store, section, nameX, nameY, nameZ).value.2|
  {
    var f := Fetch(store, section, nameX, nameY, nameZ);
    if f.Ok? {
      var (xs, ys, flat, sentinel) := f.value;
      var o := OrderOf(sentinel, nameX.value, nameY.value);
      if o.Some? && |flat| < |xs| * |ys| {
        assert 0 < |xs| && 0 < |ys|;
        LastIndex(o.value, |xs|, |ys|);
      }
    }
  }

  /** The four fetches succeed when the axes and the table are double arrays and the sentinel is a string. */
  lemma FetchFound(store: Sections, section: CText, nameX: CText, nameY: CText, nameZ: CText,
                   xs: seq<Float64>, ys: seq<Float64>, flat: seq<Float64>, sentinel: string)
    requires EntryAt(store, section, nameX) == Some(DoubleArr(xs))
    requires EntryAt(store, section, nameY) == Some(DoubleArr(ys))
    requires EntryAt(store, section, nameZ) == Some(DoubleArr(flat))
    requires EntryAt(store, section, SentinelKey(nameZ)) == Some(Str(sentinel))
    ensures Fetch(Some(store), Some(section), Some(nameX), Some(nameY), Some(nameZ)) == Ok((xs, ys, flat, CString(sentinel)))
  {
  }

  /** A store with a one-entry table under 2 × 2 axes, in row-major order. */
  function ShortTableStore(): Sections
  {
    var zero: Float64 := 0;
    map["grid" := map[
      "x" := DoubleArr([zero, zero]),
      "y" := DoubleArr([zero, zero]),
      "z" := DoubleArr([zero]),
      SentinelKey("z") := Str(SentinelValue("x", "y"))]]
  }

  /** On that store the as-written read takes entry 3 of a one-entry vector; the corrected read refuses it. */
  lemma ShortTableReadsPast()
    ensures GridDecodeAsWritten(Some(ShortTableStore()), Some("grid"), Some("x"), Some("y"), Some("z")) == ReadsPast(3)
    ensures GridDecode(Some(ShortTableStore()), Some("grid"), Some("x"), Some("y"), Some("z")) == Err(SizeInsufficient)
  {
    var zero: Float64 := 0;
    var store := ShortTableStore();
    var sentinel := SentinelValue("x", "y");
    var inner := store["grid"];
    assert |SentinelKey("z")| == |OrderMarker| + 1;
    assert "x" != "y" && "x" != "z" && "y" != "z";
    assert EntryAt(store, "grid", "x") == Some(DoubleArr([zero, zero]));
    assert EntryAt(store, "grid", "y") == Some(DoubleArr([zero, zero]));
    assert EntryAt(store, "grid", "z") == Some(DoubleArr([zero]));
    assert EntryAt(store, "grid", SentinelKey("z")) == Some(Str(sentinel));
    assert '\0' !in sentinel;
    CStringIdentity(sentinel);
    FetchFound(store, "grid", "x", "y", "z", [zero, zero], [zero, zero], [zero], sentinel);
    assert OrderOf(sentinel, "x", "y") == Some(Direct);
    LastIndex(Direct, 2, 2);
  }

  /**
   * A successful grid put is read back as the same grid under the same
   * names, and as the transposed grid with the axis names swapped whenever
   * the two orders have different sentinels.
   */
  lemma {:induction false} GridRoundTrip(store: Sections, section: CText, nameX: CText, xs: seq<Float64>,
                                         nameY: CText, ys: seq<Float64>, nameZ: CText, z: seq<seq<Float64>>)
    requires IsRect(z, |xs|, |ys|)
    requires GridPut(store, Some(section), Some(nameX), Some(DoubleArr(xs)), |xs|,
                     Some(nameY), Some(DoubleArr(ys)), |ys|, Some(nameZ), z).status == Success
    ensures var after := GridPut(store, Some(section), Some(nameX), Some(DoubleArr(xs)), |xs|,
                                 Some(nameY), Some(DoubleArr(ys)), |ys|, Some(nameZ), z).store;
      GridDecode(Some(after), Some(section), Some(nameX), Some(nameY), Some(nameZ)) == Ok(Grid(xs, ys, z))
    ensures var after := GridPut(store, Some(section), Some(nameX), Some(DoubleArr(xs)), |xs|,
                                 Some(nameY), Some(DoubleArr(ys)), |ys|, Some(nameZ), z).store;
      CString(SentinelValue(nameX, nameY)) != CString(SentinelValue(nameY, nameX)) ==>
      GridDecode(Some(after), Some(section), Some(nameY), Some(nameX), Some(nameZ)) == Ok(Grid(ys, xs, Transpose(z, |ys|)))
  {
    var x, y, flat := DoubleArr(xs), DoubleArr(ys), DoubleArr(Flatten(z));
    var key, sv := SentinelKey(nameZ), Str(CString(SentinelValue(nameX, nameY)));
    var s1 := Put(store, section, nameX, x);
    var s2 := Put(s1.store, section, nameY, y);
    var s3 := Put(s2.store, section, nameZ, flat);
    var s4 := Put(s3.store, section, key, sv);
    GridPutNames(store, section, nameX, x, |xs|, nameY, y, |ys|, nameZ, z);
    PutThenGet(store, section, nameX, x);
    PutThenGet(s1.store, section, nameY, y);
    PutThenGet(s2.store, section, nameZ, flat);
    PutThenGet(s3.store, section, key, sv);
    assert EntryAt(s4.store, section, nameX) == Some(x);
    assert EntryAt(s4.store, section, nameY) == Some(y);
    assert EntryAt(s4.store, section, nameZ) == Some(flat);
    assert EntryAt(s4.store, section, key) == Some(sv);
    var after := s4.store;
    CStringIdentity(CString(SentinelValue(nameX, nameY)));
    FlattenDirectRoundTrip(z, |xs|, |ys|);
    FlattenTransposedRoundTrip(z, |xs|, |ys|);
    assert Fetch(Some(after), Some(section), Some(nameX), Some(nameY), Some(nameZ))
      == Ok((xs, ys, Flatten(z), CString(SentinelValue(nameX, nameY))));
    assert Fetch(Some(after), Some(section), Some(nameY), Some(nameX), Some(nameZ))
      == Ok((ys, xs, Flatten(z), CString(SentinelValue(nameX, nameY))));
  }

  // ---------------------------------------------------------------------------
  // The C entry points
  // ---------------------------------------------------------------------------

  /** The caller's table has n_x readable rows of at least n_y entries whenever the put reads it. */
  predicate RowsReadable(z: array?<array<Float64>>, nx: int, ny: int)
    reads z
  {
    nx > 0 && ny > 0 ==> z != null && nx <= z.Length && forall i :: 0 <= i < nx ==> ny <= z[i].Length
  }

  /** The n_x × n_y table a caller's `double**` holds. */
  ghost function Rows(z: array?<array<Float64>>, nx: int, ny: int): (t: seq<seq<Float64>>)
    requires RowsReadable(z, nx, ny)
    reads z, if z == null then [] else z[..]
    ensures nx >= 0 && ny >= 0 ==> IsRect(t, nx, ny)
  {
    if nx <= 0 then []
    else seq(nx, i requires 0 <= i < nx && (ny > 0 ==> z != null && i < z.Length && ny <= z[i].Length)
                   reads z, if z != null && 0 <= i < z.Length then {z[i]} else {} =>
               if ny <= 0 then [] else z[i][..ny])
  }

  /** The inner copy loop: the first ny entries of one row go to positions at.. of the buffer. */
  method CopyRow(row: array<Float64>, ny: nat, flat: array<Float64>, at: nat)
    requires ny <= row.Length && at + ny <= flat.Length && row != flat
    modifies flat
    ensures flat[..at + ny] == old(flat[..at]) + row[..ny]
    ensures flat[..at] == old(flat[..at])
  {
    for j := 0 to ny
      invariant flat[..at + j] == old(flat[..at]) + row[..j]
    {
      flat[at + j] := row[j];
      assert row[..j + 1] == row[..j] + [row[j]];
    }
  }

  /** Row i of the caller's table: its first ny entries. */
  lemma RowsAt(z: array?<array<Float64>>, nx: nat, ny: nat, i: nat)
    requires RowsReadable(z, nx, ny) && i < nx
    ensures Rows(z, nx, ny)[i] == if ny == 0 then [] else z[i][..ny]
  {
  }

  /** Flattening one more row appends that row. */
  lemma FlattenStep(rows: seq<seq<Float64>>, i: nat)
    requires i < |rows|
    ensures Flatten(rows[..i + 1]) == Flatten(rows[..i]) + rows[i]
  {
    assert rows[..i + 1][..i] == rows[..i];
  }

  /** A prefix of the rows flattens to no more entries than all of them. */
  lemma {:induction false} FlattenPrefixLength(rows: seq<seq<Float64>>, k: nat)
    requires k <= |rows|
    ensures |Flatten(rows[..k])| <= |Flatten(rows)|
    decreases |rows| - k
  {
    if k < |rows| {
      FlattenPrefixLength(rows, k + 1);
      FlattenStep(rows, k);
    } else {
      assert rows[..k] == rows;
    }
  }

  /** Room for row i after the rows before it, in a buffer as long as the whole flattened table. */
  lemma RowRoom(rows: seq<seq<Float64>>, i: nat)
    requires i < |rows|
    ensures |Flatten(rows[..i])| + |rows[i]| <= |Flatten(rows)|
  {
    FlattenStep(rows, i);
    FlattenPrefixLength(rows, i + 1);
  }

  /** Row i of the caller's table holds row i of `rows`. */
  predicate HoldsRows(z: array?<array<Float64>>, nx: nat, ny: nat, rows: seq<seq<Float64>>)
    reads z, if z == null then [] else z[..]
  {
    && IsRect(rows, nx, ny)
    && (nx > 0 && ny > 0 ==> z != null && nx <= z.Length
                             && forall i :: 0 <= i < nx ==> ny <= z[i].Length && z[i][..ny] == rows[i])
  }

  /** The caller's table holds the rows it denotes. */
  lemma RowsHeld(z: array?<array<Float64>>, nx: nat, ny: nat)
    requires RowsReadable(z, nx, ny)
    ensures HoldsRows(z, nx, ny, Rows(z, nx, ny))
  {
    forall i | 0 <= i < nx ensures Rows(z, nx, ny)[i] == if ny == 0 then [] else z[i][..ny] {
      RowsAt(z, nx, ny, i);
    }
  }

  /** The row-major copy loop of c_datablock_put_double_grid, into a fresh buffer of n_x*n_y entries. */
  method FlattenRowMajor(z: array?<array<Float64>>, nx: nat, ny: nat, ghost rows: seq<seq<Float64>>) returns (flat: array<Float64>)
    requires HoldsRows(z, nx, ny, rows)
    ensures fresh(flat) && flat.Length == nx * ny
    ensures flat[..] == Flatten(rows)
  {
    FlattenLength(rows, ny);
    flat := new Float64[nx * ny];
    var p := 0;
    for i := 0 to nx
      invariant flat.Length == |Flatten(rows)|
      invariant 0 <= p <= flat.Length
      invariant flat[..p] == Flatten(rows[..i])
    {
      RowRoom(rows, i);
      FlattenStep(rows, i);
      if ny > 0 {
        assert z[i][..ny] == old(z[i][..ny]) == rows[i];
        CopyRow(z[i], ny, flat, p);
      }
      p := p + ny;
    }
    assert rows[..nx] == rows;
    assert flat[..p] == flat[..];
  }

  /** The table step of c_datablock_put_double_grid: the row-major copy, then the put of the n_x*n_y buffer. */
  method PutTable(s: DataBlock, section: Option<CText>, nameZ: Option<CText>,
                  z: array?<array<Float64>>, nx: nat, ny: nat) returns (st: Status)
    requires RowsReadable(z, nx, ny)
    modifies s
    ensures Step(st, s.sections) == old(EntryWrite(s.sections, section, nameZ, Some(DoubleArr(Flatten(Rows(z, nx, ny)))), false, false))
  {
    ghost var rows := Rows(z, nx, ny);
    RowsHeld(z, nx, ny);
    var flat := FlattenRowMajor(z, nx, ny, rows);
    assert DoublePayload(flat, nx * ny) == Some(DoubleArr(Flatten(rows))) by {
      assert flat[..nx * ny] == flat[..];
    }
    st := PutDoubleArray(s, section, nameZ, flat, nx * ny);
  }

  /** The axis steps of c_datablock_put_double_grid: x, then y unless x failed. */
  method PutAxes(s: DataBlock, section: Option<CText>,
                 nameX: Option<CText>, nx: int, x: array?<Float64>,
                 nameY: Option<CText>, ny: int, y: array?<Float64>) returns (st: Status)
    requires section.Some? && nameX.Some? && x != null && nx >= 0 ==> nx <= x.Length
    requires (&& EntryWrite(s.sections, section, nameX, DoublePayload(x, nx), nx < 0, false).status == Success
              && nameY.Some? && y != null && ny >= 0)
             ==> ny <= y.Length
    modifies s
    ensures Step(st, s.sections) == old(AxesPut(s.sections, section, nameX, DoublePayload(x, nx), nx, nameY, DoublePayload(y, ny), ny))
  {
    st := PutDoubleArray(s, section, nameX, x, nx);
    if st != Success {
      return;
    }
    st := PutDoubleArray(s, section, nameY, y, ny);
  }

  /**
   * c_datablock_put_double_grid: the four puts in order through the C
   * entry points, stopping at the first failure.
   */
  method PutDoubleGrid(s: DataBlock?, section: Option<CText>,
                       nameX: Option<CText>, nx: int, x: array?<Float64>,
                       nameY: Option<CText>, ny: int, y: array?<Float64>,
                       nameZ: Option<CText>, z: array?<array<Float64>>) returns (st: Status)
    requires s != null && section.Some? && nameX.Some? && x != null && nx >= 0 ==> nx <= x.Length
    requires (&& s != null
              && EntryWrite(s.sections, section, nameX, DoublePayload(x, nx), nx < 0, false).status == Success
              && nameY.Some? && y != null && ny >= 0)
             ==> ny <= y.Length
    requires (s != null && AxesPut(s.sections, section, nameX, DoublePayload(x, nx), nx,
                                   nameY, DoublePayload(y, ny), ny).status == Success)
             ==> RowsReadable(z, nx, ny)
    modifies s
    ensures s == null ==> st == DatablockNull
    ensures s != null ==>
      var axes := old(AxesPut(s.sections, section, nameX, DoublePayload(x, nx), nx, nameY, DoublePayload(y, ny), ny));
      && (axes.status != Success ==> Step(st, s.sections) == axes)
      && (axes.status == Success ==>
            Step(st, s.sections) == old(GridPut(s.sections, section, nameX, DoublePayload(x, nx), nx,
                                                nameY, DoublePayload(y, ny), ny, nameZ, Rows(z, nx, ny))))
  {
    if s == null {
      return DatablockNull;
    }
    ghost var s2 := AxesPut(s.sections, section, nameX, DoublePayload(x, nx), nx, nameY, DoublePayload(y, ny), ny);
    ghost var rows := if s2.status == Success then Rows(z, nx, ny) else [];
    st := PutAxes(s, section, nameX, nx, x, nameY, ny, y);
    if st != Success {
      return;
    }
    assert s.sections == s2.store && Rows(z, nx, ny) == rows;
    st := PutTableAndSentinel(s, section, nameX, nameY, nameZ, z, nx, ny);
  }

  /** The table and sentinel steps of c_datablock_put_double_grid, once both axes are in. */
  method PutTableAndSentinel(s: DataBlock, section: Option<CText>, nameX: Option<CText>, nameY: Option<CText>,
                             nameZ: Option<CText>, z: array?<array<Float64>>, nx: nat, ny: nat) returns (st: Status)
    requires nameX.Some? && nameY.Some?
    requires RowsReadable(z, nx, ny)
    modifies s
    ensures Step(st, s.sections) == old(TablePut(s.sections, section, nameX, nameY, nameZ, Rows(z, nx, ny)))
  {
    st := PutTable(s, section, nameZ, z, nx, ny);
    if st != Success {
      return;
    }
    st := PutString(s, section, Some(SentinelKey(nameZ.value)), Some(SentinelValue(nameX.value, nameY.value)));
  }

  /** allocate_2d_double: nx fresh, distinct rows of ny entries each. */
  method AllocateGrid(nx: nat, ny: nat) returns (z: array<array<Float64>>)
    ensures fresh(z) && z.Length == nx
    ensures forall i :: 0 <= i < nx ==> fresh(z[i]) && z[i].Length == ny
    ensures forall i, j :: 0 <= i < j < nx ==> z[i] != z[j]
  {
    var placeholder := new Float64[0];
    z := new array<Float64>[nx](_ => placeholder);
    for i := 0 to nx
      invariant forall r :: 0 <= r < i ==> fresh(z[r]) && z[r].Length == ny && z[r] != placeholder
      invariant forall r, q :: 0 <= r < q < i ==> z[r] != z[q]
    {
      var row := new Float64[ny];
      z[i] := row;
    }
  }

  /** deallocate_2d_double: the caller's pointer is set to NULL. */
  method DeallocateGrid(z: Cell<array?<array<Float64>>>)
    modifies z
    ensures z.value == null
  {
    z.value := null;
  }

  /** One row of the read's copy loop: row i of the table in the given orientation. */
  method FillRow(row: array<Float64>, flat: array<Float64>, i: nat, nx: nat, ny: nat, o: Orientation)
    requires i < nx && row.Length == ny && nx * ny <= flat.Length && row != flat
    modifies row
    ensures row[..] == Unflatten(flat[..], nx, ny, o)[i]
  {
    for j := 0 to ny
      invariant row[..j] == Unflatten(flat[..], nx, ny, o)[i][..j]
    {
      UnflattenAt(flat[..], nx, ny, o, i, j);
      row[j] := flat[Index(o, i, j, nx, ny)];
    }
  }

  /** The caller's `double**` holds the table: one distinct row per table row, each equal to it. */
  predicate HoldsTable(a: array<array<Float64>>, t: seq<seq<Float64>>)
    reads a, set i | 0 <= i < a.Length :: a[i]
  {
    && a.Length == |t|
    && (forall i :: 0 <= i < a.Length ==> a[i][..] == t[i])
    && (forall i, j :: 0 <= i < j < a.Length ==> a[i] != a[j])
  }

  /** allocate_2d_double followed by the copy loop of c_datablock_get_double_grid for one orientation. */
  method BuildTable(flat: array<Float64>, nx: nat, ny: nat, o: Orientation) returns (table: array<array<Float64>>)
    requires nx * ny <= flat.Length
    ensures fresh(table) && forall i :: 0 <= i < table.Length ==> fresh(table[i])
    ensures HoldsTable(table, Unflatten(flat[..], nx, ny, o))
  {
    table := AllocateGrid(nx, ny);
    ghost var t := Unflatten(flat[..], nx, ny, o);
    for i := 0 to nx
      invariant forall r :: 0 <= r < nx ==> fresh(table[r]) && table[r].Length == ny && table[r] != flat
      invariant forall r, q :: 0 <= r < q < nx ==> table[r] != table[q]
      invariant forall r :: 0 <= r < i ==> table[r][..] == t[r]
    {
      var row := table[i];
      FillRow(row, flat, i, nx, ny, o);
    }
  }

  /** The axis reads of c_datablock_get_double_grid, into the caller's pointers; NULL again after a failure. */
  method FetchAxesInto(s: DataBlock?, section: Option<CText>,
                       nameX: Option<CText>, x: Cell<array?<Float64>>,
                       nameY: Option<CText>, y: Cell<array?<Float64>>) returns (st: Status)
    requires x != y
    modifies x, y
    ensures var f := FetchAxes(StoreOf(s), section, nameX, nameY);
      && (f.Err? ==> st == f.error && x.value == null && y.value == null)
      && (f.Ok? ==> && st == Success
                    && x.value != null && fresh(x.value) && x.value[..] == f.value.0
                    && y.value != null && fresh(y.value) && y.value[..] == f.value.1)
  {
    ghost var store := StoreOf(s);
    ghost var f := FetchAxes(store, section, nameX, nameY);
    x.value := null;
    y.value := null;
    var nxOut := new Cell(0);
    st := GetDoubleArray(s, section, nameX, x, nxOut, false);
    if st != Success {
      assert f == Err(st);
      return;
    }
    ghost var xs := x.value[..];
    var nyOut := new Cell(0);
    st := GetDoubleArray(s, section, nameY, y, nyOut, false);
    if st != Success {
      assert f == Err(st);
      x.value := null;
      return;
    }
    assert x.value[..] == xs;
    assert f == Ok((xs, y.value[..]));
  }

  /** The table and sentinel reads of c_datablock_get_double_grid, into buffers of its own. */
  method FetchTableParts(s: DataBlock?, section: Option<CText>, nameZ: Option<CText>)
    returns (st: Status, flat: array?<Float64>, sentinel: array?<char>)
    ensures var f := FetchTable(StoreOf(s), section, nameZ);
      && (f.Err? ==> st == f.error)
      && (f.Ok? ==> && st == Success
                    && flat != null && fresh(flat) && flat[..] == f.value.0
                    && sentinel != null && sentinel[..] == f.value.1)
  {
    ghost var f := FetchTable(StoreOf(s), section, nameZ);
    flat, sentinel := null, null;
    var flatOut := new Cell<array?<Float64>>(null);
    var nzOut := new Cell(0);
    st := GetDoubleArray(s, section, nameZ, flatOut, nzOut, false);
    if st != Success {
      assert f == Err(st);
      return;
    }
    flat := flatOut.value;
    ghost var zs := flat[..];
    var sentinelOut := new Cell<array?<char>>(null);
    st := GetString(s, section, Some(SentinelKey(nameZ.value)), sentinelOut, false);
    if st != Success {
      assert f == Err(st);
      return;
    }
    sentinel := sentinelOut.value;
    assert flat[..] == zs;
    assert f == Ok((zs, sentinel[..]));
  }

  /**
   * The four reads that open c_datablock_get_double_grid: x and y into the
   * caller's pointers, then the flat table and the sentinel string; after a
   * failure both caller pointers are NULL again.
   */
  method FetchParts(s: DataBlock?, section: Option<CText>,
                    nameX: Option<CText>, x: Cell<array?<Float64>>,
                    nameY: Option<CText>, y: Cell<array?<Float64>>,
                    nameZ: Option<CText>) returns (st: Status, flat: array?<Float64>, sentinel: array?<char>)
    requires x != y
    modifies x, y
    ensures var f := Fetch(StoreOf(s), section, nameX, nameY, nameZ);
      && (f.Err? ==> st == f.error && x.value == null && y.value == null)
      && (f.Ok? ==> && st == Success
                    && x.value != null && fresh(x.value) && x.value[..] == f.value.0
                    && y.value != null && fresh(y.value) && y.value[..] == f.value.1
                    && flat != null && fresh(flat) && flat[..] == f.value.2
                    && sentinel != null && sentinel[..] == f.value.3)
  {
    flat, sentinel := null, null;
    st := FetchAxesInto(s, section, nameX, x, nameY, y);
    if st != Success {
      return;
    }
    ghost var xs, ys := x.value[..], y.value[..];
    st, flat, sentinel := FetchTableParts(s, section, nameZ);
    if st != Success {
      x.value := null;
      y.value := null;
      return;
    }
    assert x.value[..] == xs && y.value[..] == ys;
  }

  /** The order check, the length check and the copy loop of the corrected read. */
  method DecodeTable(x: array<Float64>, y: array<Float64>, flat: array<Float64>, sentinel: array<char>,
                     nameX: string, nameY: string) returns (st: Status, table: array?<array<Float64>>)
    ensures var r := DecodeParts(x[..], y[..], flat[..], sentinel[..], nameX, nameY);
      && (r.Err? ==> st == r.error && table == null)
      && (r.Ok? ==> && st == Success && table != null && fresh(table)
                    && (forall i :: 0 <= i < table.Length ==> fresh(table[i]))
                    && HoldsTable(table, r.value.z))
  {
    var nx, ny := x.Length, y.Length;
    var o := OrderOf(sentinel[..], nameX, nameY);
    if o.None? {
      return WrongValueType, null;
    }
    if flat.Length < nx * ny {
      return SizeInsufficient, null;
    }
    table := BuildTable(flat, nx, ny, o.value);
    st := Success;
  }

  /** The reads and the decoding of the corrected c_datablock_get_double_grid, before the table and sizes are handed back. */
  method ReadGrid(s: DataBlock?, section: Option<CText>,
                  nameX: Option<CText>, x: Cell<array?<Float64>>,
                  nameY: Option<CText>, y: Cell<array?<Float64>>,
                  nameZ: Option<CText>) returns (st: Status, table: array?<array<Float64>>)
    requires x != y
    modifies x, y
    ensures var r := GridDecode(StoreOf(s), section, nameX, nameY, nameZ);
      && (r.Err? ==> st == r.error && x.value == null && y.value == null)
      && (r.Ok? ==> && st == Success
                    && x.value != null && fresh(x.value) && x.value[..] == r.value.xs
                    && y.value != null && fresh(y.value) && y.value[..] == r.value.ys
                    && table != null && fresh(table) && HoldsTable(table, r.value.z)
                    && forall i :: 0 <= i < table.Length ==> fresh(table[i]))
  {
    ghost var r := GridDecode(StoreOf(s), section, nameX, nameY, nameZ);
    GridDecodeStages(StoreOf(s), section, nameX, nameY, nameZ);
    table := null;
    var flat, sentinel;
    st, flat, sentinel := FetchParts(s, section, nameX, x, nameY, y, nameZ);
    if st != Success {
      assert r == Err(st);
      return;
    }
    assert r == DecodeParts(x.value[..], y.value[..], flat[..], sentinel[..], nameX.value, nameY.value);
    st, table := DecodeTable(x.value, y.value, flat, sentinel, nameX.value, nameY.value);
    if st != Success {
      x.value := null;
      y.value := null;
    }
  }

  /**
   * c_datablock_get_double_grid with the table length checked: on any
   * failure the three output pointers are NULL and the sizes are left as
   * they were; on success the caller owns fresh copies of both axes and a
   * fresh table laid out as the reader asked.
   */
  method GetDoubleGrid(s: DataBlock?, section: Option<CText>,
                       nameX: Option<CText>, nX: Cell<int>, x: Cell<array?<Float64>>,
                       nameY: Option<CText>, nY: Cell<int>, y: Cell<array?<Float64>>,
                       nameZ: Option<CText>, z: Cell<array?<array<Float64>>>) returns (st: Status)
    requires x != y && nX != nY
    modifies x, y, z, nX, nY
    ensures var r := GridDecode(StoreOf(s), section, nameX, nameY, nameZ);
      && (r.Err? ==> st == r.error && x.value == null && y.value == null && z.value == null
                     && nX.value == old(nX.value) && nY.value == old(nY.value))
      && (r.Ok? ==> && st == Success
                    && nX.value == |r.value.xs| && nY.value == |r.value.ys|
                    && x.value != null && fresh(x.value) && x.value[..] == r.value.xs
                    && y.value != null && fresh(y.value) && y.value[..] == r.value.ys
                    && z.value != null && fresh(z.value) && HoldsTable(z.value, r.value.z)
                    && forall i :: 0 <= i < z.value.Length ==> fresh(z.value[i]))
  {
    z.value := null;
    var table;
    st, table := ReadGrid(s, section, nameX, x, nameY, y, nameZ);
    if st != Success {
      return;
    }
    nX.value := x.value.Length;
    nY.value := y.value.Length;
    z.value := table;
  }
}
