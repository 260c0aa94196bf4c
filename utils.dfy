/**
 * The MRC2014 header utilities of the `mrcfile` package: classifying the space
 * group, deriving the data array's shape and element type from the header,
 * translating between MRC mode numbers and element types, and choosing the
 * machine stamp for a byte order.
 *
 * A numpy dtype is represented by its kind character (`'f'`, `'i'`, `'u'`,
 * `'c'`, ...), its item size in bytes and its byte-order character (`'='`,
 * `'<'`, `'>'`, ...). Failures that the Python code raises as `ValueError` are
 * `Err` results.
 */
module Utils {
  import opened Numbers

  /** A numpy dtype, reduced to the three attributes the utilities read. */
  datatype Dtype = Dtype(kind: char, itemsize: nat, byteOrder: char)

  /** The `ValueError`s raised by the utilities, one per cause. */
  datatype Error =
    | UnsupportedDtype(dtype: Dtype)
    | UnrecognisedMode(mode: int)
    | UnrecognisedByteOrder(indicator: char)

  datatype Result<T> = Ok(value: T) | Err(error: Error)

  /** The header fields the utilities read. `modeByteOrder` is the byte order
      of the header's `mode` field, i.e. of the whole header record. */
  datatype Header = Header(nx: int, ny: int, nz: int, mz: int, ispg: int,
                           mode: int, modeByteOrder: char)

  /** numpy's native byte-order indicator, carried by every dtype built from a
      scalar type. */
  const NativeOrder: char := '='

  // ---------------------------------------------------------------------
  // Space groups and data shape
  // ---------------------------------------------------------------------

  /** MRC2014 marks a stack of volumes by a space group number in 401..630. */
  predicate SpacegroupIsVolumeStack(ispg: int)
  {
    401 <= ispg <= 630
  }

  /** The shape of the data array described by `h`. The volume-stack test comes
      first; a 2-D shape is used only for a single image (`nz == 1`) under the
      image-stack space group, whose number is `imageStackSpacegroup`. The
      Python code divides by `mz` without a guard, so a volume-stack header
      must have a non-zero `mz`. */
  function DataShapeFromHeader(h: Header, imageStackSpacegroup: int): (shape: seq<int>)
    requires SpacegroupIsVolumeStack(h.ispg) ==> h.mz != 0
    ensures 2 <= |shape| <= 4
    ensures shape[|shape| - 2..] == [h.ny, h.nx]
    ensures |shape| == 4 <==> SpacegroupIsVolumeStack(h.ispg)
    ensures |shape| == 2 <==>
      !SpacegroupIsVolumeStack(h.ispg) && h.ispg == imageStackSpacegroup && h.nz == 1
    ensures |shape| == 4 ==> shape[1] == h.mz
    ensures |shape| == 4 && h.mz > 0 ==> shape[0] * h.mz <= h.nz < shape[0] * h.mz + h.mz
    ensures |shape| == 4 && h.mz < 0 ==> shape[0] * h.mz + h.mz < h.nz <= shape[0] * h.mz
    ensures |shape| == 3 ==> shape[0] == h.nz
  {
    if SpacegroupIsVolumeStack(h.ispg) then
      [FloorDiv(h.nz, h.mz), h.mz, h.ny, h.nx]
    else if h.ispg == imageStackSpacegroup && h.nz == 1 then
      [h.ny, h.nx]
    else
      [h.nz, h.ny, h.nx]
  }

  /** The data array holds `nx * ny * nz` elements whenever a volume stack's
      `nz` is a whole number of volumes of `mz` sections. */
  lemma ShapeElementCount(h: Header, imageStackSpacegroup: int)
    requires SpacegroupIsVolumeStack(h.ispg) ==> h.mz != 0 && h.nz % h.mz == 0
    ensures Product(DataShapeFromHeader(h, imageStackSpacegroup)) == h.nx * h.ny * h.nz
  {
    ProductOfShape(h.ny, h.nx, 0, 0);
    ProductOfShape(h.nz, h.ny, h.nx, 0);
    if SpacegroupIsVolumeStack(h.ispg) {
      FloorDivExact(h.nz, h.mz);
      var q := FloorDiv(h.nz, h.mz);
      ProductOfShape(q, h.mz, h.ny, h.nx);
      assert q * (h.mz * (h.ny * h.nx)) == (q * h.mz) * (h.ny * h.nx);
    }
  }

  /** A volume-stack header with space group 401, `nz = 6` and `mz = 2`
      describes three volumes of two 4 x 5 sections, whatever the image-stack
      space group is. */
  lemma VolumeStackExample(imageStackSpacegroup: int)
    ensures DataShapeFromHeader(Header(5, 4, 6, 2, 401, 2, '<'), imageStackSpacegroup)
      == [3, 2, 4, 5]
  {
  }

  // ---------------------------------------------------------------------
  // Mode <-> dtype tables
  // ---------------------------------------------------------------------

  /** The dtype-to-mode table, keyed by the dtype's kind character followed by
      its item size in decimal. float16 and uint8 share a mode with the wider
      float32 and uint16: their data is widened in the file. */
  const DtypeToMode: map<string, int> :=
    map["f2" := 2, "f4" := 2, "i1" := 0, "i2" := 1, "u1" := 6, "u2" := 6, "c8" := 4]

  /** The key under which a dtype is looked up: `kind + str(itemsize)`. */
  function KindAndSize(d: Dtype): (key: string)
  {
    [d.kind] + DecimalString(d.itemsize)
  }

  /** The MRC mode for a dtype, or an error when the format has no mode for
      it. The byte order of the dtype plays no part. */
  function ModeFromDtype(d: Dtype): (r: Result<int>)
    ensures r.Ok? ==> r.value in {0, 1, 2, 4, 6}
    ensures r.Err? ==> r.error == UnsupportedDtype(d)
  {
    var key := KindAndSize(d);
    if key in DtypeToMode then Ok(DtypeToMode[key]) else Err(UnsupportedDtype(d))
  }

  /** The mode for each supported (kind, item size) pair, and an error for every
      other pair: float16/float32 -> 2, int8 -> 0, int16 -> 1,
      uint8/uint16 -> 6, complex64 -> 4. */
  lemma {:induction false} ModeFromDtypeTable(d: Dtype)
    ensures ModeFromDtype(d) ==
      if d.kind == 'f' && (d.itemsize == 2 || d.itemsize == 4) then Ok(2)
      else if d.kind == 'i' && d.itemsize == 1 then Ok(0)
      else if d.kind == 'i' && d.itemsize == 2 then Ok(1)
      else if d.kind == 'u' && (d.itemsize == 1 || d.itemsize == 2) then Ok(6)
      else if d.kind == 'c' && d.itemsize == 8 then Ok(4)
      else Err(UnsupportedDtype(d))
  {
    var key := KindAndSize(d);
    var n := d.itemsize;
    DecimalStringOfDigit(n, 1);
    DecimalStringOfDigit(n, 2);
    DecimalStringOfDigit(n, 4);
    DecimalStringOfDigit(n, 8);
    if |DecimalString(n)| == 1 {
      assert key == [d.kind, DecimalString(n)[0]];
    } else {
      assert |key| != 2;
    }
  }

  /** The mode-to-dtype table: every dtype in it has numpy's native byte
      order. There is no dtype for mode 3. */
  const ModeToDtype: map<int, Dtype> := map[
    0 := Dtype('i', 1, NativeOrder),
    1 := Dtype('i', 2, NativeOrder),
    2 := Dtype('f', 4, NativeOrder),
    4 := Dtype('c', 8, NativeOrder),
    6 := Dtype('u', 2, NativeOrder)]

  /** The dtype for an MRC mode, or an error when the mode is unrecognised. */
  function DtypeFromMode(mode: int): (r: Result<Dtype>)
    ensures r.Ok? <==> mode in {0, 1, 2, 4, 6}
    ensures r.Ok? ==> r.value.byteOrder == NativeOrder
    ensures r.Err? ==> r.error == UnrecognisedMode(mode)
  {
    if mode in ModeToDtype then Ok(ModeToDtype[mode]) else Err(UnrecognisedMode(mode))
  }

  /** Modes 0, 1, 2, 4, 6 give int8, int16, float32, complex64, uint16; mode 3
      and every other number are errors. */
  lemma DtypeFromModeTable(mode: int)
    ensures DtypeFromMode(mode) ==
      if mode == 0 then Ok(Dtype('i', 1, NativeOrder))
      else if mode == 1 then Ok(Dtype('i', 2, NativeOrder))
      else if mode == 2 then Ok(Dtype('f', 4, NativeOrder))
      else if mode == 4 then Ok(Dtype('c', 8, NativeOrder))
      else if mode == 6 then Ok(Dtype('u', 2, NativeOrder))
      else Err(UnrecognisedMode(mode))
  {
  }

  /** Every recognised mode survives the trip through its dtype. */
  lemma ModeRoundTrip(mode: int)
    ensures DtypeFromMode(mode).Ok? ==> ModeFromDtype(DtypeFromMode(mode).value) == Ok(mode)
  {
    if DtypeFromMode(mode).Ok? {
      ModeFromDtypeTable(DtypeFromMode(mode).value);
    }
  }

  /** A supported dtype comes back from its mode with the same kind and an
      item size at least as large; only float16 and uint8 are widened (to
      float32 and uint16), every other dtype comes back unchanged apart from
      taking the native byte order. */
  lemma DtypeRoundTrip(d: Dtype)
    ensures ModeFromDtype(d).Ok? ==> DtypeFromMode(ModeFromDtype(d).value).Ok?
    ensures ModeFromDtype(d).Ok? ==>
      var back := DtypeFromMode(ModeFromDtype(d).value).value;
      && back.kind == d.kind
      && (IsWidened(d) ==> back.itemsize == 2 * d.itemsize)
      && (!IsWidened(d) ==> back == d.(byteOrder := NativeOrder))
  {
    ModeFromDtypeTable(d);
  }

  /** float16 and uint8: the dtypes whose data the file stores widened. */
  predicate IsWidened(d: Dtype)
  {
    (d.kind == 'f' && d.itemsize == 2) || (d.kind == 'u' && d.itemsize == 1)
  }

  /** The mode table is not injective: widened dtypes share their mode with
      the wider dtype, and no dtype maps to mode 3. */
  lemma ModeFromDtypeSharedModes(d: Dtype, order: char)
    ensures ModeFromDtype(Dtype('f', 2, order)) == ModeFromDtype(Dtype('f', 4, order)) == Ok(2)
    ensures ModeFromDtype(Dtype('u', 1, order)) == ModeFromDtype(Dtype('u', 2, order)) == Ok(6)
    ensures ModeFromDtype(d) != Ok(3)
  {
    ModeFromDtypeTable(Dtype('f', 2, order));
    ModeFromDtypeTable(Dtype('f', 4, order));
    ModeFromDtypeTable(Dtype('u', 1, order));
    ModeFromDtypeTable(Dtype('u', 2, order));
  }

  // ---------------------------------------------------------------------
  // Machine stamp
  // ---------------------------------------------------------------------

  type Byte = bv8

  /** The machine stamps MRC2014 fixes for little- and big-endian files. */
  const LittleEndianStamp: seq<Byte> := [0x44, 0x44, 0, 0]
  const BigEndianStamp: seq<Byte> := [0x11, 0x11, 0, 0]

  const ByteOrderToMachineStamp: map<char, seq<Byte>> :=
    map['<' := LittleEndianStamp, '>' := BigEndianStamp]

  /** The machine stamp for a numpy byte-order indicator. The native indicator
      `'='` (the default) is first replaced by `'<'` when the running system is
      little-endian (`systemByteOrder == "little"`) and by `'>'` otherwise;
      any other indicator but `'<'` and `'>'` is an error. */
  function MachineStampFromByteOrder(systemByteOrder: string, byteOrder: char := '='): (r: Result<seq<Byte>>)
    ensures r.Ok? <==> byteOrder in {'=', '<', '>'}
    ensures r.Ok? ==> |r.value| == 4
    ensures r.Ok? ==> r.value == LittleEndianStamp || r.value == BigEndianStamp
    ensures r.Err? ==> r.error == UnrecognisedByteOrder(byteOrder)
  {
    var order := if byteOrder == '=' then (if systemByteOrder == "little" then '<' else '>')
                 else byteOrder;
    if order in ByteOrderToMachineStamp then Ok(ByteOrderToMachineStamp[order])
    else Err(UnrecognisedByteOrder(order))
  }

  /** Which stamp each indicator selects. */
  lemma MachineStampTable(systemByteOrder: string, byteOrder: char)
    ensures byteOrder == '<' ==> MachineStampFromByteOrder(systemByteOrder, byteOrder) == Ok(LittleEndianStamp)
    ensures byteOrder == '>' ==> MachineStampFromByteOrder(systemByteOrder, byteOrder) == Ok(BigEndianStamp)
    ensures byteOrder == '=' ==>
      MachineStampFromByteOrder(systemByteOrder, byteOrder) ==
      MachineStampFromByteOrder(systemByteOrder, if systemByteOrder == "little" then '<' else '>')
  {
  }

  /** The two stamps differ, so an explicit byte order can be recovered from
      its stamp. */
  lemma MachineStampDeterminesByteOrder(systemByteOrder: string, a: char, b: char)
    requires a in {'<', '>'} && b in {'<', '>'}
    ensures LittleEndianStamp != BigEndianStamp
    ensures MachineStampFromByteOrder(systemByteOrder, a) == MachineStampFromByteOrder(systemByteOrder, b) ==> a == b
  {
  }

  // ---------------------------------------------------------------------
  // Data dtype of a header
  // ---------------------------------------------------------------------

  /** The dtype of the data array described by `h`: the dtype of its mode,
      switched to the byte order of the header's `mode` field. */
  function DataDtypeFromHeader(h: Header): (r: Result<Dtype>)
    ensures r.Ok? <==> DtypeFromMode(h.mode).Ok?
    ensures r.Ok? ==> r.value.byteOrder == h.modeByteOrder
    ensures r.Ok? ==> r.value.kind == DtypeFromMode(h.mode).value.kind
    ensures r.Ok? ==> r.value.itemsize == DtypeFromMode(h.mode).value.itemsize
    ensures r.Err? ==> r == DtypeFromMode(h.mode)
  {
    match DtypeFromMode(h.mode)
    case Ok(d) => Ok(d.(byteOrder := h.modeByteOrder))
    case Err(e) => Err(e)
  }

  /** The header's data dtype maps back to the header's mode, whatever the
      header's byte order. */
  lemma DataDtypeModeRoundTrip(h: Header)
    ensures DataDtypeFromHeader(h).Ok? ==> ModeFromDtype(DataDtypeFromHeader(h).value) == Ok(h.mode)
  {
    if DataDtypeFromHeader(h).Ok? {
      ModeFromDtypeTable(DataDtypeFromHeader(h).value);
    }
  }
}
