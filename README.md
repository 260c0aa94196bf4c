# mrcfile header utilities in Dafny

A model of the utility layer of the `mrcfile` Python package
(`mrcfile/utils.py`), which reads and writes MRC2014 electron-microscopy
files. These functions turn header fields into facts about the data block:

- whether a space group number (`ispg`) marks a stack of volumes;
- the shape of the data array (4-D volume stack, 2-D single image, or 3-D volume);
- the MRC mode number for a numpy dtype, and the dtype for a mode;
- the 4-byte machine stamp for a byte-order indicator;
- the data dtype of a header, which is its mode's dtype in the header's byte order.

Files:

- `numbers.dfy` (module `Numbers`) holds the Python integer semantics the
  model needs. Floor division `//` and the decimal `str()` of an item size are
  used by the utilities themselves. Exact floor division and the element
  count of a shape serve only the lemma `ShapeElementCount`.
- `utils.dfy` (module `Utils`) holds the utilities themselves. They are pure
  functions over a `Header` record, a `Dtype` record `(kind, itemsize,
  byteOrder)` and the three read-only lookup tables of the source.

Every `ValueError` of the source is an `Err` result. `Error` has one
constructor per cause: `UnsupportedDtype`, `UnrecognisedMode` and
`UnrecognisedByteOrder`.

Parameters stand in for things the module reads from outside:

- `imageStackSpacegroup` is the value of `IMAGE_STACK_SPACEGROUP`, defined in
  `mrcfile/constants.py`. No lemma assumes its value.
- `systemByteOrder` is Python's `sys.byteorder`.

The dtype-to-mode table is keyed by strings, as in the source: the key is the
kind character followed by `str(itemsize)`. `ModeFromDtypeTable` proves that
this lookup equals the plain case split on (kind, item size).

## Model

| member | source | states |
|---|---|---|
| `Utils.SpacegroupIsVolumeStack` | mrcfile/utils.py:181-191 | True exactly when `401 <= ispg <= 630`; it is the test `DataShapeFromHeader` uses to pick the 4-axis shape |
| `Utils.DataShapeFromHeader` | mrcfile/utils.py:53-76 | The shape has 2, 3 or 4 axes and always ends in `(ny, nx)`. It has 4 axes exactly for a volume stack, with `mz` second and the floor of `nz / mz` first. It has 2 axes exactly when the group is not a volume stack, equals the image-stack group and `nz == 1`. Otherwise it is `(nz, ny, nx)`. A volume stack needs a non-zero `mz` |
| `Utils.ShapeElementCount` | mrcfile/utils.py:68-76 | If a volume stack's `nz` is a multiple of `mz`, then in every branch the shape's element count is `nx * ny * nz` |
| `Utils.VolumeStackExample` | mrcfile/utils.py:68-69 | Space group 401 with `nx = 5`, `ny = 4`, `nz = 6`, `mz = 2` gives the shape `(3, 2, 4, 5)`, the stack built by tests/test_validation.py:196-198, whatever the image-stack space group is |
| `Numbers.FloorDiv` | mrcfile/utils.py:69 | Python's `//` rounds the quotient towards negative infinity for either sign of the divisor |
| `Numbers.DecimalString` | mrcfile/utils.py:105 | `str(n)` is a non-empty run of decimal digits that denotes `n`, has no leading zero, and is one character long exactly when `n < 10` |
| `Numbers.DecimalStringOfDigit` | mrcfile/utils.py:105 | The one-character rendering `str(n)` names the digit `d` exactly when `n == d`, so keys such as `"f2"` match a single item size |
| `Utils.ModeFromDtype` | mrcfile/utils.py:79-109 | A found mode is one of 0, 1, 2, 4, 6. A failure is `UnsupportedDtype` of the given dtype |
| `Utils.ModeFromDtypeTable` | mrcfile/utils.py:79-109 | float16 and float32 give 2, int8 gives 0, int16 gives 1, uint8 and uint16 give 6, complex64 gives 4. Every other (kind, item size) is an error, and the byte order is ignored |
| `Utils.DtypeFromMode` | mrcfile/utils.py:112-149 | A mode succeeds exactly when it is in {0, 1, 2, 4, 6}. The dtype has native byte order, and any other mode fails as `UnrecognisedMode` |
| `Utils.DtypeFromModeTable` | mrcfile/utils.py:112-149 | Modes 0, 1, 2, 4, 6 give int8, int16, float32, complex64, uint16. Mode 3 and every other number fail |
| `Utils.ModeRoundTrip` | mrcfile/utils.py:79-149 | For every recognised mode `m`, `mode_from_dtype(dtype_from_mode(m)) == m` |
| `Utils.DtypeRoundTrip` | mrcfile/utils.py:84-92 | A supported dtype comes back from its mode with the same kind. float16 and uint8 come back at twice their item size. Every other dtype comes back unchanged except that its byte order becomes native |
| `Utils.ModeFromDtypeSharedModes` | mrcfile/utils.py:79-94 | float16 and float32 share mode 2, and uint8 and uint16 share mode 6, so the map is not injective. No dtype maps to mode 3 |
| `Utils.MachineStampFromByteOrder` | mrcfile/utils.py:152-179 | It succeeds exactly for `'='`, `'<'` and `'>'`. The result is 4 bytes long and is either the little-endian or the big-endian stamp. Any other indicator fails as `UnrecognisedByteOrder` |
| `Utils.MachineStampTable` | mrcfile/utils.py:171-176 | `'<'` gives `44 44 00 00` and `'>'` gives `11 11 00 00`. `'='` gives what `'<'` gives on a little-endian system and what `'>'` gives otherwise |
| `Utils.MachineStampDeterminesByteOrder` | mrcfile/utils.py:152-153 | The two stamps differ, so distinct explicit byte orders get distinct stamps |
| `Utils.DataDtypeFromHeader` | mrcfile/utils.py:35-50 | It fails exactly when the header's mode is unrecognised, with that same error. On success it has the kind and item size of the mode's dtype and the byte order of the header's `mode` field |
| `Utils.DataDtypeModeRoundTrip` | mrcfile/utils.py:35-50 | The header's data dtype maps back to the header's own mode, whatever the header's byte order |

## Left out

- numpy is represented abstractly. A dtype is its kind character, item size
  and byte-order character. `newbyteorder(o)` is modelled as setting the byte
  order to `o`. numpy's normalisation is not modelled: it reports `'|'` for
  single-byte types and `'='` for the native order.
- `Header.modeByteOrder` admits any character. Only `'<'`, `'>'` and `'='`
  can occur for the 32-bit `mode` field. numpy's `newbyteorder` treats `'|'`
  and `'S'` specially and rejects other characters; the model does neither.
- The conversion `int(mode)` of floats, numpy scalars and one-element arrays
  (mrcfile/utils.py:145) is not modelled. The mode is an `int`.
- Header fields are unbounded integers. numpy's 32-bit arithmetic is not
  modelled; its only effect here is the overflow of `-2**31 // -1`.
- Utils.DataShapeFromHeader: a volume-stack header with `mz == 0` is excluded
  by a precondition. The source has no guard for it: a Python `int` raises
  `ZeroDivisionError`, and a numpy 32-bit scalar yields 0 with a runtime
  warning. Neither outcome is modelled.
- `machine_stamp_from_byte_order` returns a bytearray shared with its table
  (mrcfile/utils.py:176), so a caller that mutates it changes the table. The
  model returns an immutable byte sequence, so that aliasing is not captured.
- The value of `IMAGE_STACK_SPACEGROUP` is not modelled.
  `mrcfile/constants.py` is not part of this model.
- The header's binary encoding and decoding, the extended header, validation,
  statistics and the storage backends are not part of this model. Their
  source is outside `mrcfile/utils.py`.
