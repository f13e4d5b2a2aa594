/** The part of Python's `struct` module the serial code uses: unpacking a
    byte string by one of four fixed formats, and packing (its inverse). */
module Struct {
  import opened Py

  /** The formats that occur in the serial code. */
  datatype Format =
    | UShortBE         // ">H": one big-endian unsigned 16-bit integer
    | TwoUBytesBE      // ">BB": two unsigned bytes
    | ByteUShortByteBE // ">BHB": a byte, a big-endian unsigned 16-bit integer, a byte
    | TypeSubTypeChar  // "BBs": two unsigned bytes and a one-byte string

  /** One unpacked item: an integer, or a byte string (format code `s`). */
  datatype Value = UInt(n: int) | Chars(b: seq<int>)

  /** `struct.calcsize`: the exact length `unpack` demands. */
  function CalcSize(f: Format): nat
  {
    match f
    case UShortBE => 2
    case TwoUBytesBE => 2
    case ByteUShortByteBE => 4
    case TypeSubTypeChar => 3
  }

  /** How many items `unpack` yields for the format. */
  function ItemCount(f: Format): nat
  {
    match f
    case UShortBE => 1
    case TwoUBytesBE => 2
    case ByteUShortByteBE => 3
    case TypeSubTypeChar => 3
  }

  /** A big-endian 16-bit value from its two bytes. */
  function BigEndian16(hi: int, lo: int): int { hi * 256 + lo }

  /** `struct.unpack(f, b)`: raises `struct.error` unless `b` has exactly
      `CalcSize(f)` bytes, and otherwise yields `ItemCount(f)` items. */
  function Unpack(f: Format, b: seq<int>): (r: Result<seq<Value>>)
    ensures r.Ok? <==> |b| == CalcSize(f)
    ensures r.Err? ==> r.error == StructError
    ensures r.Ok? ==> |r.value| == ItemCount(f)
    ensures r.Ok? && f != TypeSubTypeChar ==> forall i :: 0 <= i < |r.value| ==> r.value[i].UInt?
  {
    if |b| != CalcSize(f) then Err(StructError)
    else
      match f
      case UShortBE => Ok([UInt(BigEndian16(b[0], b[1]))])
      case TwoUBytesBE => Ok([UInt(b[0]), UInt(b[1])])
      case ByteUShortByteBE => Ok([UInt(b[0]), UInt(BigEndian16(b[1], b[2])), UInt(b[3])])
      case TypeSubTypeChar => Ok([UInt(b[0]), UInt(b[1]), Chars(b[2..3])])
  }

  predicate IsUShort(x: int) { 0 <= x < 0x1_0000 }

  /** The one-byte string `s` packs into: truncated or zero-padded to one byte. */
  function OneChar(s: seq<int>): seq<int> { if s == [] then [0] else s[..1] }

  /** `struct.pack(f, *items)`: raises `struct.error` when the item count or
      an item's kind does not fit the format, or an integer is out of range. */
  function Pack(f: Format, items: seq<Value>): (r: Result<seq<int>>)
    ensures r.Ok? ==> |r.value| == CalcSize(f)
    ensures r.Err? ==> r.error == StructError
  {
    if |items| != ItemCount(f) then Err(StructError)
    else
      match f
      case UShortBE =>
        if items[0].UInt? && IsUShort(items[0].n)
        then Ok([items[0].n / 256, items[0].n % 256]) else Err(StructError)
      case TwoUBytesBE =>
        if items[0].UInt? && IsByte(items[0].n) && items[1].UInt? && IsByte(items[1].n)
        then Ok([items[0].n, items[1].n]) else Err(StructError)
      case ByteUShortByteBE =>
        if items[0].UInt? && IsByte(items[0].n) && items[1].UInt? && IsUShort(items[1].n)
           && items[2].UInt? && IsByte(items[2].n)
        then Ok([items[0].n, items[1].n / 256, items[1].n % 256, items[2].n]) else Err(StructError)
      case TypeSubTypeChar =>
        if items[0].UInt? && IsByte(items[0].n) && items[1].UInt? && IsByte(items[1].n) && items[2].Chars?
        then Ok([items[0].n, items[1].n] + OneChar(items[2].b)) else Err(StructError)
  }

  /** Splitting a 16-bit value into its high and low bytes and joining them
      again gives the value back. */
  lemma SplitJoin16(x: int)
    requires IsUShort(x)
    ensures IsByte(x / 256) && IsByte(x % 256)
    ensures BigEndian16(x / 256, x % 256) == x
  {
  }

  /** Joining two bytes and splitting the result gives the bytes back. */
  lemma JoinSplit16(hi: int, lo: int)
    requires IsByte(hi) && IsByte(lo)
    ensures IsUShort(BigEndian16(hi, lo))
    ensures BigEndian16(hi, lo) / 256 == hi && BigEndian16(hi, lo) % 256 == lo
  {
  }

  /** Unpacking what was packed gives the items back (a one-byte string
      survives exactly when it was one byte long). */
  lemma UnpackPack(f: Format, items: seq<Value>)
    requires Pack(f, items).Ok?
    requires f == TypeSubTypeChar ==> |items[2].b| == 1
    ensures Unpack(f, Pack(f, items).value) == Ok(items)
  {
    var b := Pack(f, items).value;
    match f
    case UShortBE =>
      SplitJoin16(items[0].n);
      assert [UInt(BigEndian16(b[0], b[1]))] == items;
    case TwoUBytesBE =>
      assert [UInt(b[0]), UInt(b[1])] == items;
    case ByteUShortByteBE =>
      SplitJoin16(items[1].n);
      assert [UInt(b[0]), UInt(BigEndian16(b[1], b[2])), UInt(b[3])] == items;
    case TypeSubTypeChar =>
      assert b[2..3] == items[2].b;
      assert [UInt(b[0]), UInt(b[1]), Chars(b[2..3])] == items;
  }

  /** Packing what was unpacked gives the bytes back. */
  lemma PackUnpack(f: Format, b: seq<int>)
    requires IsBytes(b)
    requires Unpack(f, b).Ok?
    ensures Pack(f, Unpack(f, b).value) == Ok(b)
  {
    match f
    case UShortBE =>
      JoinSplit16(b[0], b[1]);
      assert [b[0], b[1]] == b;
    case TwoUBytesBE =>
      assert [b[0], b[1]] == b;
    case ByteUShortByteBE =>
      JoinSplit16(b[1], b[2]);
      assert [b[0], b[1], b[2], b[3]] == b;
    case TypeSubTypeChar =>
      assert IsByte(b[0]) && IsByte(b[1]);
      assert OneChar(b[2..3]) == b[2..3];
      assert [b[0], b[1]] + b[2..3] == b;
  }
}
