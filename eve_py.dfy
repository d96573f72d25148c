// The table-driven encoder and decoder of tools/eve.py: parameter widths and
// offsets, `Param.pack`/`unpack`, `get_cmdword`, `DlCmd.pack`/`unpack`,
// `CpCmd.pack`/`size`, `initialise` and `align`. Python exceptions are the
// `Err` side of a `Result`; an `int` is an unbounded Dafny `int`; `bytes` is
// a sequence of `Byte`; a `str` argument is carried already UTF-8 encoded.
module EveTool {
  import opened PyBits

  type Byte = b: int | 0 <= b < 256

  datatype Option<T> = None | Some(value: T)

  /** The Python exception an operation raises. */
  datatype Error = AssertionError | ValueError | StructError | AttributeError | TypeError

  datatype Result<T> = Ok(value: T) | Err(error: Error)

  // ---------------------------------------------------------------- align

  /** `align(offset, size)`: the smallest multiple of `size` at or above `offset`. */
  function Align(offset: int, size: int): (r: int)
    requires size > 0
    ensures r % size == 0 && offset <= r < offset + size
    ensures offset % size == 0 ==> r == offset
  {
    var e := offset % size;
    DivModUnique(offset, size, offset / size, e);
    if e != 0 then
      DivModUnique(offset + size - e, size, offset / size + 1, 0);
      offset + size - e
    else offset
  }

  /** No multiple of `size` at or above `offset` lies below `Align(offset, size)`. */
  lemma {:induction false} AlignLeast(offset: int, size: int, m: int)
    requires size > 0 && m % size == 0 && m >= offset
    ensures Align(offset, size) <= m
  {
    var r := Align(offset, size);
    if m < r {
      assert 0 < r - m < size;
      DivModUnique(r, size, r / size, 0);
      DivModUnique(m, size, m / size, 0);
      DivModUnique(r - m, size, r / size - m / size, 0);
    }
  }

  lemma {:induction false} AlignIdempotent(offset: int, size: int)
    requires size > 0
    ensures Align(Align(offset, size), size) == Align(offset, size)
  {
  }

  // ------------------------------------------------------------ parameters

  /** What a parameter type is, besides its width. */
  datatype Kind =
    | Plain                                   // an integer of `bitcount` bits
    | Fixed(scale: nat)                       // fixed point: `int(arg * scale)`
    | CStr                                    // the `CString` type
    | Block(lengthParam: Option<string>)      // a `DataBlock`

  datatype Type = Type(name: string, bitcount: nat, signed: bool, kind: Kind)

  /** `Param`: `storedBits` overrides the type's width; `offset` is set by `initialise`. */
  datatype Param = Param(name: string, typedef: Type, storedBits: Option<nat>, offset: Option<nat>)

  /** `CommandDef`: the opcode (top byte of a display-list word, low byte of 0xffffffxx) and the parameters. */
  datatype Command = Command(code: nat, name: string, params: seq<Param>)

  const Address := Type("Address", 22, false, Plain)
  const ColorChannel := Type("ColorChannel", 8, false, Plain)
  const Tag := Type("Tag", 8, false, Plain)
  const Handle := Type("Handle", 5, false, Plain)
  const Cell := Type("Cell", 7, false, Plain)
  const Boolean := Type("bool", 1, false, Plain)
  const TestFunction := Type("TestFunction", 4, false, Plain)
  const StencilOp := Type("StencilOp", 3, false, Plain)
  const Fixed8_8 := Type("Fixed8", 17, true, Fixed(256))
  const Fixed15_8 := Type("Fixed8", 24, true, Fixed(65536))
  const DisplayListOffset := Type("DisplayListOffset", 16, false, Plain)
  const RGB := Type("RGB", 24, false, Plain)
  const ARGB := Type("ARGB", 32, false, Plain)
  const UInt8 := Type("uint8_t", 8, false, Plain)
  const Int16 := Type("int16_t", 16, true, Plain)
  const UInt16 := Type("uint16_t", 16, false, Plain)
  const Int32 := Type("int32_t", 32, true, Plain)
  const UInt32 := Type("uint32_t", 32, false, Plain)
  const CString := Type("CString", 0, false, CStr)
  const Fixed16_16 := Type("Fixed16", 32, true, Fixed(65536))
  const Angle := Type("Angle", 32, false, Plain)
  const Options := Type("Options", 16, false, Plain)

  /** `DataBlock(length_param)`. */
  function DataBlock(lengthParam: Option<string>): (t: Type)
    ensures t.bitcount == 0 && t.kind.Block?
  {
    Type("DataBlock", 0, false, Block(lengthParam))
  }

  /** `Param.bitcount`: `stored_bits or typedef.bitcount` (a zero `stored_bits` falls back too). */
  function Bitcount(p: Param): nat
  {
    if p.storedBits.Some? && p.storedBits.value != 0 then p.storedBits.value else p.typedef.bitcount
  }

  /** `Param.size`: the bit count rounded up to 16 bits, in bytes. */
  function Size(p: Param): nat
  {
    Align(Bitcount(p), 16) / 8
  }

  /** A parameter of 1 to 16 bits takes 2 bytes, one of 17 to 32 bits 4, and a zero-width one (a CString) none. */
  lemma {:induction false} SizeClasses(p: Param)
    ensures Bitcount(p) == 0 <==> Size(p) == 0
    ensures 1 <= Bitcount(p) <= 16 <==> Size(p) == 2
    ensures 17 <= Bitcount(p) <= 32 <==> Size(p) == 4
    ensures Bitcount(p) <= Size(p) * 8 < Bitcount(p) + 16
  {
    var b := Bitcount(p);
    var r := Align(b, 16);
    assert r % 16 == 0 && b <= r < b + 16;
    DivModUnique(r, 16, r / 16, 0);
    assert Size(p) == 2 * (r / 16);
  }

  // ------------------------------------------------------------ struct

  /** The struct formats the encoder uses: '<H', '<h', '<l' and '<L'. */
  datatype Format = U16 | S16 | S32 | U32

  function Width(f: Format): nat
  {
    if f == U16 || f == S16 then 2 else 4
  }

  /** The values `struct.pack` accepts for a format. */
  predicate Fits(f: Format, v: int)
  {
    match f
    case U16 => 0 <= v < 0x1_0000
    case S16 => -0x8000 <= v < 0x8000
    case S32 => -0x8000_0000 <= v < 0x8000_0000
    case U32 => 0 <= v < 0x1_0000_0000
  }

  /** The `k` low bytes of `n`, least significant first (two's complement for negative `n`). */
  function LeBytes(n: int, k: nat): (r: seq<Byte>)
    ensures |r| == k
    decreases k
  {
    if k == 0 then [] else [n % 256] + LeBytes(n / 256, k - 1)
  }

  /** The unsigned little-endian value of some bytes. */
  function FromLe(bs: seq<Byte>): nat
  {
    if bs == [] then 0 else bs[0] + 256 * FromLe(bs[1..])
  }

  lemma Pow2Values()
    ensures Pow2(8) == 0x100 && Pow2(15) == 0x8000 && Pow2(16) == 0x1_0000
    ensures Pow2(24) == 0x100_0000 && Pow2(31) == 0x8000_0000 && Pow2(32) == 0x1_0000_0000
  {
    assert Pow2(4) == 16 && Pow2(7) == 128;
    Pow2Add(4, 4);
    Pow2Add(8, 7);
    Pow2Add(8, 8);
    Pow2Add(16, 8);
    Pow2Add(16, 15);
    Pow2Add(16, 16);
  }

  /** Decoding the `k` bytes of `n` gives `n` modulo 2^(8k). */
  lemma {:induction false} LeBytesDecode(n: int, k: nat)
    ensures FromLe(LeBytes(n, k)) == n % Pow2(8 * k)
    decreases k
  {
    if k > 0 {
      LeBytesDecode(n / 256, k - 1);
      var bs := LeBytes(n, k);
      assert bs[0] == n % 256 && bs[1..] == LeBytes(n / 256, k - 1);
      ModByteShift(n, k);
    } else {
      DivModUnique(n, 1, n, 0);
    }
  }

  /** The remainder mod 2^(8k) from the low byte and the remainder of the rest mod 2^(8(k-1)). */
  lemma {:induction false} ModByteShift(n: int, k: nat)
    requires k > 0
    ensures n % Pow2(8 * k) == n % 256 + 256 * ((n / 256) % Pow2(8 * (k - 1)))
  {
    var q, r := n / 256, n % 256;
    var p' := Pow2(8 * (k - 1));
    Pow2Add(8, 8 * (k - 1));
    assert Pow2(8) == 256;
    var hi, lo := q / p', q % p';
    assert n == 256 * (lo + p' * hi) + r;
    MulDistrib(256, lo, p', hi);
    ShiftAddBound(r, lo, 256, p');
    DivModUnique(n, 256 * p', hi, r + 256 * lo);
  }

  /** Byte `i` of `LeBytes(n, k)` is bits 8i to 8i+7 of `n`. */
  lemma {:induction false} LeBytesAt(n: int, k: nat, i: nat)
    requires i < k
    ensures LeBytes(n, k)[i] == (n / Pow2(8 * i)) % 256
    decreases k
  {
    if i > 0 {
      LeBytesAt(n / 256, k - 1, i - 1);
      Pow2Add(8, 8 * (i - 1));
      Pow2Values();
      assert Pow2(8 * i) == 256 * Pow2(8 * (i - 1));
      DivDiv(n, 256, Pow2(8 * (i - 1)));
    }
  }

  /** A value read as two's complement in `bits` bits. */
  function Signed(u: int, bits: nat): int
    requires bits > 0
  {
    if u >= Pow2(bits - 1) then u - Pow2(bits) else u
  }

  /** `struct.pack(fmt, v)`: `struct.error` unless the value fits the format. */
  function StructPack(f: Format, v: int): (r: Result<seq<Byte>>)
    ensures r.Ok? ==> |r.value| == Width(f)
  {
    if Fits(f, v) then Ok(LeBytes(v, Width(f))) else Err(StructError)
  }

  /** `struct.unpack(fmt, data)[0]`: `struct.error` unless `data` has exactly the format's width. */
  function StructUnpack(f: Format, data: seq<Byte>): (r: Result<int>)
    ensures r.Ok? ==> |data| == Width(f)
    ensures r.Ok? && (f == U16 || f == U32) ==> 0 <= r.value < Pow2(8 * Width(f))
  {
    if |data| != Width(f) then Err(StructError)
    else
      FromLeBound(data);
      var u := FromLe(data);
      Ok(match f
         case S16 => Signed(u, 16)
         case S32 => Signed(u, 32)
         case _ => u)
  }

  lemma {:induction false} FromLeBound(bs: seq<Byte>)
    ensures FromLe(bs) < Pow2(8 * |bs|)
  {
    if bs != [] {
      FromLeBound(bs[1..]);
      Pow2Add(8, 8 * (|bs| - 1));
      Pow2Values();
      assert FromLe(bs) <= 255 + 256 * (Pow2(8 * (|bs| - 1)) - 1);
    }
  }

  /** `struct.unpack(fmt, struct.pack(fmt, v)) == (v,)` for every value the format accepts, and nothing else packs. */
  lemma {:induction false} StructRoundTrip(f: Format, v: int)
    ensures StructPack(f, v).Ok? <==> Fits(f, v)
    ensures Fits(f, v) ==> StructUnpack(f, StructPack(f, v).value) == Ok(v)
  {
    if Fits(f, v) {
      var w := Width(f);
      LeBytesDecode(v, w);
      Pow2Values();
      var p := Pow2(8 * w);
      if v < 0 {
        DivModUnique(v, p, -1, v + p);
      } else {
        DivModUnique(v, p, 0, v);
      }
    }
  }

  // ------------------------------------------------- Param.pack / unpack

  /** A Python value handed to `pack`. */
  datatype Value = Int(i: int) | Text(s: seq<Byte>) | Data(d: seq<Byte>)

  /** `s.ljust(n, b'\0')`: pads with zeros up to `n` bytes and never truncates. */
  function Ljust(s: seq<Byte>, n: int): (r: seq<Byte>)
    ensures |r| == (if |s| < n then n else |s|)
    ensures r[..|s|] == s
    ensures forall i :: |s| <= i < |r| ==> r[i] == 0
  {
    if |s| < n then s + seq(n - |s|, _ => 0) else s
  }

  /** The integer a parameter stores for an integer argument: fixed-point types scale it first. */
  function Scaled(p: Param, v: int): int
  {
    match p.typedef.kind
    case Fixed(scale) => v * scale
    case _ => v
  }

  /** The struct format `Param.pack` uses, as written: '<H' for every 2-byte parameter. */
  function FormatAsWritten(p: Param): Format
  {
    if Size(p) == 2 then U16 else if p.typedef.signed then S32 else U32
  }

  /** The format a signed parameter evidently calls for: '<h' for a signed 2-byte parameter. */
  function FormatOf(p: Param): Format
  {
    if Size(p) == 2 then (if p.typedef.signed then S16 else U16)
    else if p.typedef.signed then S32 else U32
  }

  /**
   * `Param.pack` with a given integer format: a CString is its bytes, a NUL
   * and zeros up to a multiple of 4; anything else is an integer for
   * `struct.pack`. A non-`str` CString argument has no `encode`; a
   * non-integer argument to an integer parameter raises inside Python's
   * arithmetic or `struct`, modelled as one `TypeError`.
   */
  function PackAs(p: Param, arg: Value, f: Format): Result<seq<Byte>>
  {
    if p.typedef.kind.CStr? then
      if arg.Text? then
        var a := arg.s + [0];
        Ok(Ljust(a, Align(|a|, 4)))
      else Err(AttributeError)
    else if arg.Int? then StructPack(f, Scaled(p, arg.i))
    else Err(TypeError)
  }

  /** `Param.pack` as written. */
  function PackAsWritten(p: Param, arg: Value): Result<seq<Byte>>
  {
    PackAs(p, arg, FormatAsWritten(p))
  }

  /** `Param.pack` with signed 2-byte parameters packed as '<h'. */
  function Pack(p: Param, arg: Value): Result<seq<Byte>>
  {
    PackAs(p, arg, FormatOf(p))
  }

  /** The `Param.pack` a command packer calls: eve.py's as written, or the corrected one. */
  datatype Packer = AsWritten | Corrected

  /** The struct format of an integer parameter under each packer. */
  function FormatWith(k: Packer, p: Param): Format
  {
    match k
    case AsWritten => FormatAsWritten(p)
    case Corrected => FormatOf(p)
  }

  function PackWith(k: Packer, p: Param, arg: Value): Result<seq<Byte>>
  {
    match k
    case AsWritten => PackAsWritten(p, arg)
    case Corrected => Pack(p, arg)
  }

  /** A decoded value: Python's `value / scale` is the exact quotient here. */
  datatype Number = Whole(n: int) | Ratio(num: int, den: nat)

  /** `data[:n]`. */
  function Take(data: seq<Byte>, n: nat): (r: seq<Byte>)
    ensures |r| == (if |data| < n then |data| else n)
  {
    if |data| < n then data else data[..n]
  }

  /** `Param.unpack` with a given 2-byte format. */
  function UnpackAs(p: Param, data: seq<Byte>, short: Format): Result<Number>
  {
    if Size(p) == 2 then
      match StructUnpack(short, Take(data, 2))
      case Err(e) => Err(e)
      case Ok(v) => Ok(Whole(v))
    else if p.typedef.signed then
      match StructUnpack(S32, Take(data, 4))
      case Err(e) => Err(e)
      case Ok(v) => Ok(match p.typedef.kind
                       case Fixed(scale) => Ratio(v, scale)
                       case _ => Whole(v))
    else
      match StructUnpack(U32, Take(data, 4))
      case Err(e) => Err(e)
      case Ok(v) => Ok(Whole(v))
  }

  /** `Param.unpack` as written: every 2-byte parameter is read as '<H'. */
  function UnpackAsWritten(p: Param, data: seq<Byte>): Result<Number>
  {
    UnpackAs(p, data, U16)
  }

  /** `Param.unpack` with signed 2-byte parameters read as '<h'. */
  function Unpack(p: Param, data: seq<Byte>): Result<Number>
  {
    UnpackAs(p, data, FormatOf(p))
  }

  /** An integer parameter of 1 to 32 bits, which packs into `Size(p)` bytes. */
  predicate IsInteger(p: Param)
  {
    (p.typedef.kind.Plain? || p.typedef.kind.Fixed?) && 0 < Bitcount(p) <= 32
  }

  /** What an integer parameter packs to, with either packer: the value in its format, exactly `Size(p)` bytes. */
  lemma {:induction false} PackInteger(k: Packer, p: Param, v: int)
    requires IsInteger(p)
    ensures PackWith(k, p, Int(v)).Ok? <==> Fits(FormatWith(k, p), Scaled(p, v))
    ensures PackWith(k, p, Int(v)).Ok? ==> PackWith(k, p, Int(v)).value == LeBytes(Scaled(p, v), Size(p))
    ensures Width(FormatWith(k, p)) == Size(p)
  {
    SizeClasses(p);
  }

  /**
   * The round trip of `Param.pack` and `Param.unpack`: an integer that fits
   * its parameter comes back unchanged (a fixed-point one as itself times the
   * scale over the scale), from exactly `Size(p)` bytes.
   */
  lemma {:induction false} PackUnpack(p: Param, v: int)
    requires IsInteger(p) && Fits(FormatOf(p), Scaled(p, v))
    requires p.typedef.kind.Fixed? ==> p.typedef.signed && Size(p) == 4
    ensures Pack(p, Int(v)).Ok? && |Pack(p, Int(v)).value| == Size(p)
    ensures Unpack(p, Pack(p, Int(v)).value)
         == Ok(if p.typedef.kind.Fixed? then Ratio(v * p.typedef.kind.scale, p.typedef.kind.scale) else Whole(v))
  {
    SizeClasses(p);
    var f := FormatOf(p);
    StructRoundTrip(f, Scaled(p, v));
    var bs := Pack(p, Int(v)).value;
    assert Take(bs, Size(p)) == bs;
  }

  /** A CString argument packs to its bytes, a NUL, and zeros up to the next multiple of 4. */
  lemma {:induction false} PackCString(p: Param, s: seq<Byte>)
    requires p.typedef.kind.CStr?
    ensures Pack(p, Text(s)).Ok?
    ensures var r := Pack(p, Text(s)).value;
      |r| % 4 == 0 && |s| < |r| <= |s| + 4 && r[..|s|] == s
      && forall i :: |s| <= i < |r| ==> r[i] == 0
  {
    var a := s + [0];
    var r := Ljust(a, Align(|a|, 4));
    assert r[..|a|] == a;
    assert r[..|s|] == a[..|s|];
  }

  /** A signed 16-bit parameter, as the x coordinate of CMD_TEXT. */
  const TextX := Param("x", Int16, None, Some(4))

  /** As written, a negative 16-bit coordinate cannot be packed; with '<h' it packs and unpacks. */
  lemma NegativeInt16Rejected()
    ensures PackAsWritten(TextX, Int(-1)) == Err(StructError)
    ensures Pack(TextX, Int(-1)) == Ok([0xFF, 0xFF])
    ensures Unpack(TextX, [0xFF, 0xFF]) == Ok(Whole(-1))
    ensures UnpackAsWritten(TextX, [0xFF, 0xFF]) == Ok(Whole(0xFFFF))
  {
    SizeClasses(TextX);
    Pow2Values();
    assert LeBytes(-1, 2) == [0xFF, 0xFF];
    FromLeBound([0xFF, 0xFF]);
    assert FromLe([0xFF, 0xFF]) == 0xFFFF by {
      assert [0xFF, 0xFF][1..] == [0xFF];
      assert FromLe([0xFF]) == 0xFF by {
        assert [0xFF][1..] == [];
      }
    }
  }

  /** The correction changes nothing but signed 2-byte parameters given a value outside 0 to 0x7FFF. */
  lemma {:induction false} PackAgrees(p: Param, arg: Value)
    requires !(p.typedef.signed && Size(p) == 2) || !arg.Int? || 0 <= Scaled(p, arg.i) < 0x8000
    ensures PackAsWritten(p, arg) == Pack(p, arg)
  {
  }

  // ------------------------------------------------------------ get_cmdword

  /** `CommandDef.get_cmdword`: the parameter must be a 24-bit value; the result sits under the opcode. */
  function GetCmdword(cmd: Command, param: int): Result<nat>
  {
    if !(param >= 0 && param <= 0xFF_FFFF) then Err(AssertionError)
    else Ok(Or(cmd.code * Pow2(24), param))
  }

  lemma {:induction false} OrCommutes(a: nat, b: nat)
    ensures Or(a, b) == Or(b, a)
    decreases a + b
  {
    if a != 0 && b != 0 {
      OrCommutes(a / 2, b / 2);
    }
  }

  /** The command word holds the opcode above bit 24 and the parameter below it. */
  lemma {:induction false} CmdwordFields(cmd: Command, param: int)
    ensures GetCmdword(cmd, param).Ok? <==> 0 <= param <= 0xFF_FFFF
    ensures GetCmdword(cmd, param).Ok? ==>
      var w := GetCmdword(cmd, param).value;
      w == cmd.code * 0x100_0000 + param && w / 0x100_0000 == cmd.code && w % 0x100_0000 == param
  {
    if 0 <= param <= 0xFF_FFFF {
      Pow2Values();
      OrCommutes(cmd.code * Pow2(24), param);
      DivModUnique(cmd.code * Pow2(24), Pow2(24), cmd.code, 0);
      OrDisjoint(param, cmd.code * Pow2(24), 24);
      SplitAt(param, 0x100_0000, cmd.code);
    }
  }

  // ------------------------------------------------------------ DlCmd

  /** `Arg`: a decoded field with its parameter. */
  datatype Arg = Arg(param: Param, value: int)

  /** `CommandDef.total_bits`. */
  function TotalBits(ps: seq<Param>): nat
  {
    if ps == [] then 0 else Bitcount(ps[0]) + TotalBits(ps[1..])
  }

  function Reverse<T>(s: seq<T>): (r: seq<T>)
    ensures |r| == |s|
    ensures forall i :: 0 <= i < |s| ==> r[i] == s[|s| - 1 - i]
  {
    if s == [] then [] else Reverse(s[1..]) + [s[0]]
  }

  /** The loop of `DlCmd.pack` over `zip(reversed(params), args)`, continued from `value`. */
  function Accumulate(rps: seq<Param>, args: seq<int>, value: nat): Result<nat>
    decreases |args|
  {
    if rps == [] || args == [] then Ok(value)
    else
      var b := Bitcount(rps[0]);
      var shifted := value * Pow2(b);
      if args[0] > Pow2(b) - 1 then Err(AttributeError)  // the message's `param.cmd` does not exist
      else Accumulate(rps[1..], args[1..], Or(shifted, args[0] % Pow2(b)))
  }

  /** `DlCmd.pack(*args)`. */
  function DlPackSpec(cmd: Command, args: seq<int>): Result<seq<Byte>>
  {
    if |cmd.params| != |args| then Err(AssertionError)
    else match Accumulate(Reverse(cmd.params), args, 0)
      case Err(e) => Err(e)
      case Ok(v) => StructPack(U32, Or(v, cmd.code * Pow2(24)))
  }

  method DlPack(cmd: Command, args: seq<int>) returns (r: Result<seq<Byte>>)
    ensures r == DlPackSpec(cmd, args)
  {
    if |cmd.params| != |args| {
      return Err(AssertionError);
    }
    var rps := Reverse(cmd.params);
    var value: nat := 0;
    var i := 0;
    while i < |args|
      invariant 0 <= i <= |args|
      invariant Accumulate(rps, args, 0) == Accumulate(rps[i..], args[i..], value)
    {
      assert rps[i..][1..] == rps[i + 1..] && args[i..][1..] == args[i + 1..];
      var bitcount := Bitcount(rps[i]);
      value := value * Pow2(bitcount);
      var mask := Pow2(bitcount) - 1;
      if args[i] > mask {
        return Err(AttributeError);
      }
      value := Or(value, args[i] % Pow2(bitcount));
      i := i + 1;
    }
    value := Or(value, cmd.code * Pow2(24));
    r := StructPack(U32, value);
  }

  /** The fields in declared order, the first in the lowest bits. */
  function Compose(ps: seq<Param>, vs: seq<int>): int
    requires |ps| == |vs|
  {
    if ps == [] then 0 else vs[0] + Pow2(Bitcount(ps[0])) * Compose(ps[1..], vs[1..])
  }

  /** Every value fits its parameter's field. */
  predicate InRange(ps: seq<Param>, vs: seq<int>)
  {
    |ps| == |vs| && forall i :: 0 <= i < |ps| ==> 0 <= vs[i] < Pow2(Bitcount(ps[i]))
  }

  lemma {:induction false} ComposeBound(ps: seq<Param>, vs: seq<int>)
    requires InRange(ps, vs)
    ensures 0 <= Compose(ps, vs) < Pow2(TotalBits(ps))
  {
    if ps != [] {
      InRangeTail(ps, vs);
      ComposeBound(ps[1..], vs[1..]);
      var b := Bitcount(ps[0]);
      Pow2Add(b, TotalBits(ps[1..]));
      ShiftAddBound(vs[0], Compose(ps[1..], vs[1..]), Pow2(b), Pow2(TotalBits(ps[1..])));
    }
  }

  lemma {:induction false} InRangeTail(ps: seq<Param>, vs: seq<int>)
    requires InRange(ps, vs) && ps != []
    ensures InRange(ps[1..], vs[1..]) && 0 <= vs[0] < Pow2(Bitcount(ps[0]))
  {
    forall i | 0 <= i < |ps| - 1 ensures 0 <= vs[1..][i] < Pow2(Bitcount(ps[1..][i])) {
      assert vs[1..][i] == vs[i + 1] && ps[1..][i] == ps[i + 1];
    }
  }

  lemma {:induction false} ReverseReverse<T>(s: seq<T>)
    ensures Reverse(Reverse(s)) == s
  {
  }

  /** The values packed by the loop, for in-range arguments: the accumulator shifted above all the fields. */
  lemma {:induction false} AccumulateCompose(ps: seq<Param>, vs: seq<int>, acc: nat)
    requires InRange(ps, vs)
    ensures Accumulate(Reverse(ps), Reverse(vs), acc) == Ok(acc * Pow2(TotalBits(ps)) + Compose(ps, vs))
  {
    InRangeReverse(ps, vs);
    AccumulateStacked(Reverse(ps), Reverse(vs), acc);
    StackedReverse(ps, vs);
  }

  /** The fields with the first one in the highest bits, the order in which the loop shifts them in. */
  function Stacked(rps: seq<Param>, vs: seq<int>): int
    requires |rps| == |vs|
  {
    if rps == [] then 0 else vs[0] * Pow2(TotalBits(rps[1..])) + Stacked(rps[1..], vs[1..])
  }

  /** The packing loop shifts the accumulator above every field and stacks the fields below it. */
  lemma {:induction false} AccumulateStacked(rps: seq<Param>, vs: seq<int>, acc: nat)
    requires InRange(rps, vs)
    ensures Accumulate(rps, vs, acc) == Ok(acc * Pow2(TotalBits(rps)) + Stacked(rps, vs))
    decreases |rps|
  {
    if rps != [] {
      var b := Bitcount(rps[0]);
      InRangeTail(rps, vs);
      ShiftIn(acc, vs[0], b);
      MulLe(acc, 0, Pow2(b));
      var next := acc * Pow2(b) + vs[0];
      AccumulateStacked(rps[1..], vs[1..], next);
      var t := TotalBits(rps[1..]);
      Pow2Add(b, t);
      Regroup(acc, Pow2(b), vs[0], Pow2(t), Stacked(rps[1..], vs[1..]), next, Stacked(rps, vs), Pow2(TotalBits(rps)));
    }
  }

  lemma {:induction false} InRangeReverse(ps: seq<Param>, vs: seq<int>)
    requires InRange(ps, vs)
    ensures InRange(Reverse(ps), Reverse(vs))
  {
    forall i | 0 <= i < |ps| ensures 0 <= Reverse(vs)[i] < Pow2(Bitcount(Reverse(ps)[i])) {
      assert Reverse(vs)[i] == vs[|ps| - 1 - i];
    }
  }

  lemma {:induction false} TotalBitsSnoc(ps: seq<Param>, p: Param)
    ensures TotalBits(ps + [p]) == TotalBits(ps) + Bitcount(p)
  {
    if ps == [] {
      assert ps + [p] == [p] && [p][1..] == [];
    } else {
      assert (ps + [p])[1..] == ps[1..] + [p];
      TotalBitsSnoc(ps[1..], p);
    }
  }

  lemma {:induction false} StackedSnoc(rps: seq<Param>, vs: seq<int>, p: Param, v: int)
    requires |rps| == |vs|
    ensures Stacked(rps + [p], vs + [v]) == Stacked(rps, vs) * Pow2(Bitcount(p)) + v
  {
    if rps == [] {
      assert rps + [p] == [p] && vs + [v] == [v];
      assert [p][1..] == [] && [v][1..] == [];
    } else {
      var b := Bitcount(p);
      assert (rps + [p])[1..] == rps[1..] + [p];
      assert (vs + [v])[1..] == vs[1..] + [v];
      StackedSnoc(rps[1..], vs[1..], p, v);
      TotalBitsSnoc(rps[1..], p);
      Pow2Add(TotalBits(rps[1..]), b);
      StackRegroup(vs[0], Pow2(TotalBits(rps[1..])), Pow2(b), Stacked(rps[1..], vs[1..]), v);
    }
  }

  lemma {:induction false} StackRegroup(v0: int, p: int, q: int, s: int, v: int)
    ensures v0 * (p * q) + (s * q + v) == (v0 * p + s) * q + v
  {
    assert (v0 * p + s) * q == v0 * (p * q) + s * q;
  }

  /** Stacking the reversed fields composes them in declared order. */
  lemma {:induction false} StackedReverse(ps: seq<Param>, vs: seq<int>)
    requires |ps| == |vs|
    ensures Stacked(Reverse(ps), Reverse(vs)) == Compose(ps, vs)
    ensures TotalBits(Reverse(ps)) == TotalBits(ps)
  {
    if ps != [] {
      assert Reverse(ps) == Reverse(ps[1..]) + [ps[0]];
      assert Reverse(vs) == Reverse(vs[1..]) + [vs[0]];
      StackedReverse(ps[1..], vs[1..]);
      StackedSnoc(Reverse(ps[1..]), Reverse(vs[1..]), ps[0], vs[0]);
      TotalBitsSnoc(Reverse(ps[1..]), ps[0]);
    }
  }

  /** `(value << b) | (v & mask)` with `v` inside the field is `value * 2^b + v`. */
  lemma {:induction false} ShiftIn(value: nat, v: int, b: nat)
    requires 0 <= v < Pow2(b)
    ensures Or(value * Pow2(b), v % Pow2(b)) == value * Pow2(b) + v
  {
    SplitAt(v, Pow2(b), 0);
    DivModUnique(value * Pow2(b), Pow2(b), value, 0);
    OrCommutes(value * Pow2(b), v);
    OrDisjoint(v, value * Pow2(b), b);
  }

  /** The accumulator shifted by one field and then by the rest is shifted by all of them. */
  lemma {:induction false} Regroup(acc: int, p: int, v: int, q: int, c: int, next: int, total: int, pq: int)
    requires next == acc * p + v && total == c + q * v && pq == p * q
    ensures next * q + c == acc * pq + total
  {
    assert (acc * p + v) * q == acc * (p * q) + q * v;
  }

  /** The loop raises exactly when some argument exceeds its field's mask. */
  lemma {:induction false} AccumulateRejects(rps: seq<Param>, args: seq<int>, acc: nat)
    requires |rps| == |args|
    ensures Accumulate(rps, args, acc).Err? <==> exists i :: 0 <= i < |args| && args[i] > Pow2(Bitcount(rps[i])) - 1
    ensures Accumulate(rps, args, acc).Err? ==> Accumulate(rps, args, acc).error == AttributeError
    decreases |args|
  {
    if args != [] && args[0] <= Pow2(Bitcount(rps[0])) - 1 {
      var b := Bitcount(rps[0]);
      AccumulateRejects(rps[1..], args[1..], Or(acc * Pow2(b), args[0] % Pow2(b)));
      if exists i :: 0 <= i < |args| && args[i] > Pow2(Bitcount(rps[i])) - 1 {
        var i :| 0 <= i < |args| && args[i] > Pow2(Bitcount(rps[i])) - 1;
        assert args[1..][i - 1] == args[i] && rps[1..][i - 1] == rps[i];
      }
      if exists i :: 0 <= i < |args| - 1 && args[1..][i] > Pow2(Bitcount(rps[1..][i])) - 1 {
        var i :| 0 <= i < |args| - 1 && args[1..][i] > Pow2(Bitcount(rps[1..][i])) - 1;
        assert args[i + 1] > Pow2(Bitcount(rps[i + 1])) - 1;
      }
    }
  }

  /** The display-list commands whose opcode and fields share no bit and fit one 32-bit word. */
  predicate Packable(cmd: Command)
  {
    cmd.code < 256 && TotalBits(cmd.params) <= 32 && (cmd.code * Pow2(24)) % Pow2(TotalBits(cmd.params)) == 0
  }

  /**
   * `DlCmd.pack` of in-range arguments: 4 bytes of the word holding the
   * opcode above bit 24 and the fields below it, the LAST argument in the
   * lowest field (it belongs to the first parameter) and the first in the
   * highest.
   */
  lemma {:induction false} DlPackWord(cmd: Command, args: seq<int>, n: int)
    requires Packable(cmd) && InRange(cmd.params, Reverse(args))
    requires n == cmd.code * 0x100_0000 + Compose(cmd.params, Reverse(args))
    ensures DlPackSpec(cmd, args) == Ok(LeBytes(n, 4))
  {
    var v := Compose(cmd.params, Reverse(args));
    DlFieldsValue(cmd.params, args);
    DlPackValue(cmd, args, v);
    ComposeBound(cmd.params, Reverse(args));
    OpcodeOr(cmd, v);
    PackU32(n);
  }

  /** Once the loop has accumulated `v`, `DlCmd.pack` packs `v | code << 24`. */
  lemma {:induction false} DlPackValue(cmd: Command, args: seq<int>, v: nat)
    requires |cmd.params| == |args| && Accumulate(Reverse(cmd.params), args, 0) == Ok(v)
    ensures DlPackSpec(cmd, args) == StructPack(U32, Or(v, cmd.code * Pow2(24)))
  {
  }

  lemma {:induction false} PackU32(n: int)
    requires 0 <= n < 0x1_0000_0000
    ensures StructPack(U32, n) == Ok(LeBytes(n, 4))
  {
  }

  /** The loop of `DlCmd.pack` over in-range arguments accumulates the fields' composition. */
  lemma {:induction false} DlFieldsValue(ps: seq<Param>, args: seq<int>)
    requires InRange(ps, Reverse(args))
    ensures |ps| == |args|
    ensures Accumulate(Reverse(ps), args, 0) == Ok(Compose(ps, Reverse(args)))
  {
    ReverseReverse(args);
    AccumulateCompose(ps, Reverse(args), 0);
  }

  /** Or-ing the opcode above the fields is adding it, and the word fits 32 bits. */
  lemma {:induction false} OpcodeOr(cmd: Command, v: int)
    requires Packable(cmd) && 0 <= v < Pow2(TotalBits(cmd.params))
    ensures Or(v, cmd.code * Pow2(24)) == cmd.code * 0x100_0000 + v < 0x1_0000_0000
  {
    var t := TotalBits(cmd.params);
    Pow2Values();
    Pow2Monotone(t, 32);
    OrDisjoint(v, cmd.code * Pow2(24), t);
    OrBound(v, cmd.code * Pow2(24), 32);
  }

  /** `DlCmd.pack` raises `AssertionError` on a wrong argument count and otherwise exactly when an argument exceeds its mask. */
  lemma {:induction false} DlPackRejects(cmd: Command, args: seq<int>)
    ensures |cmd.params| != |args| ==> DlPackSpec(cmd, args) == Err(AssertionError)
    ensures |cmd.params| == |args| ==>
      ((exists i :: 0 <= i < |args| && args[i] > Pow2(Bitcount(cmd.params[|args| - 1 - i])) - 1)
       <==> DlPackSpec(cmd, args) == Err(AttributeError))
  {
    if |cmd.params| == |args| {
      DlPackFails(cmd, args);
      AccumulateRejects(Reverse(cmd.params), args, 0);
      ExceedsReversed(cmd.params, args);
    }
  }

  /** With the right argument count, `DlCmd.pack` fails with `AttributeError` exactly when its loop does. */
  lemma {:induction false} DlPackFails(cmd: Command, args: seq<int>)
    requires |cmd.params| == |args|
    ensures DlPackSpec(cmd, args) == Err(AttributeError) <==> Accumulate(Reverse(cmd.params), args, 0) == Err(AttributeError)
  {
  }

  /** An argument exceeds its field in the reversed pairing exactly when it does counted from the end of the parameters. */
  lemma {:induction false} ExceedsReversed(ps: seq<Param>, args: seq<int>)
    requires |ps| == |args|
    ensures (exists i :: 0 <= i < |args| && args[i] > Pow2(Bitcount(Reverse(ps)[i])) - 1)
        <==> (exists i :: 0 <= i < |args| && args[i] > Pow2(Bitcount(ps[|args| - 1 - i])) - 1)
  {
    var rps := Reverse(ps);
    if exists i :: 0 <= i < |args| && args[i] > Pow2(Bitcount(ps[|args| - 1 - i])) - 1 {
      var i :| 0 <= i < |args| && args[i] > Pow2(Bitcount(ps[|args| - 1 - i])) - 1;
      assert rps[i] == ps[|args| - 1 - i];
    }
  }

  /** `(cmdword >> off) & mask` for a field of `bits` bits. */
  function Field(w: nat, off: nat, bits: nat): nat
  {
    DivNat(w, Pow2(off));
    And(w / Pow2(off), Pow2(bits) - 1)
  }

  /** The loop of `DlCmd.unpack` from bit offset `off`: `(cmdword >> off) & mask` for each parameter. */
  function Fields(ps: seq<Param>, w: nat, off: nat): (r: seq<Arg>)
    ensures |r| == |ps|
  {
    if ps == [] then []
    else [Arg(ps[0], Field(w, off, Bitcount(ps[0])))] + Fields(ps[1..], w, off + Bitcount(ps[0]))
  }

  /** `DlCmd.unpack(data)`: the arguments and the size consumed. */
  function DlUnpackSpec(cmd: Command, data: seq<Byte>): Result<(seq<Arg>, nat)>
  {
    match StructUnpack(U32, Take(data, 4))
    case Err(e) => Err(e)
    case Ok(w) => Ok((Fields(cmd.params, w, 0), 4))
  }

  method DlUnpack(cmd: Command, data: seq<Byte>) returns (r: Result<(seq<Arg>, nat)>)
    ensures r == DlUnpackSpec(cmd, data)
  {
    var word := StructUnpack(U32, Take(data, 4));
    if word.Err? {
      return Err(word.error);
    }
    var args := ReadFields(cmd.params, word.value);
    return Ok((args, 4));
  }

  /** The field loop of `DlCmd.unpack`: each parameter's bits, from bit 0 upwards. */
  method ReadFields(ps: seq<Param>, cmdword: nat) returns (args: seq<Arg>)
    ensures args == Fields(ps, cmdword, 0)
  {
    ghost var whole := Fields(ps, cmdword, 0);
    args := [];
    var off: nat := 0;
    var i := 0;
    assert ps[0..] == ps && whole[0..] == whole;
    while i < |ps|
      invariant 0 <= i <= |ps| && |args| == i
      invariant Fields(ps[i..], cmdword, off) == whole[i..]
      invariant forall k :: 0 <= k < i ==> args[k] == whole[k]
    {
      var bitcount := Bitcount(ps[i]);
      var value := Field(cmdword, off, bitcount);
      FieldsStep(ps, i, cmdword, off, whole);
      args := args + [Arg(ps[i], value)];
      off := off + bitcount;
      i := i + 1;
    }
    assert args == whole;
  }

  /** One pass of the field loop: the fields from parameter `i` on are parameter `i`'s field, then the rest. */
  lemma {:induction false} FieldsStep(ps: seq<Param>, i: nat, w: nat, off: nat, whole: seq<Arg>)
    requires i < |ps| == |whole| && Fields(ps[i..], w, off) == whole[i..]
    ensures whole[i] == Arg(ps[i], Field(w, off, Bitcount(ps[i])))
    ensures Fields(ps[i + 1..], w, off + Bitcount(ps[i])) == whole[i + 1..]
  {
    var rest := ps[i..];
    assert rest != [] && rest[0] == ps[i] && rest[1..] == ps[i + 1..];
    assert whole[i..][0] == whole[i] && whole[i..][1..] == whole[i + 1..];
  }

  /** Parameters paired with values. */
  function Pair(ps: seq<Param>, vs: seq<int>): (r: seq<Arg>)
    requires |ps| == |vs|
    ensures |r| == |ps| && forall i :: 0 <= i < |ps| ==> r[i] == Arg(ps[i], vs[i])
  {
    seq(|ps|, i requires 0 <= i < |ps| => Arg(ps[i], vs[i]))
  }

  /** Reading the fields of a word whose bits from `off` up are these fields recovers their values. */
  lemma {:induction false} FieldsCompose(ps: seq<Param>, vs: seq<int>, w: nat, off: nat, m: nat)
    requires InRange(ps, vs)
    requires w / Pow2(off) == Compose(ps, vs) + Pow2(TotalBits(ps)) * m
    ensures Fields(ps, w, off) == Pair(ps, vs)
    decreases |ps|
  {
    if ps != [] {
      InRangeTail(ps, vs);
      FirstField(ps, vs, w, off, m);
      FieldsCompose(ps[1..], vs[1..], w, off + Bitcount(ps[0]), m);
      assert Pair(ps, vs) == [Arg(ps[0], vs[0])] + Pair(ps[1..], vs[1..]);
    }
  }

  /** One step of FieldsCompose: the first field is the first value, and the word from the next offset holds the rest. */
  lemma {:induction false} FirstField(ps: seq<Param>, vs: seq<int>, w: nat, off: nat, m: nat)
    requires ps != [] && InRange(ps, vs)
    requires w / Pow2(off) == Compose(ps, vs) + Pow2(TotalBits(ps)) * m
    ensures Field(w, off, Bitcount(ps[0])) == vs[0]
    ensures w / Pow2(off + Bitcount(ps[0])) == Compose(ps[1..], vs[1..]) + Pow2(TotalBits(ps[1..])) * m
  {
    var b := Bitcount(ps[0]);
    var t' := TotalBits(ps[1..]);
    InRangeTail(ps, vs);
    var c := Compose(ps[1..], vs[1..]);
    ComposeBound(ps[1..], vs[1..]);
    DivNat(w, Pow2(off));
    var x: nat := w / Pow2(off);
    assert x == vs[0] + Pow2(b) * c + Pow2(b + t') * m;
    FieldSplit(x, vs[0], b, c, t', m);
    Pow2Add(off, b);
    DivDiv(w, Pow2(off), Pow2(b));
  }

  /** The low field of `x` and what lies above it, read with `& mask` and `>> b`. */
  lemma {:induction false} FieldSplit(x: nat, v: int, b: nat, c: int, t: nat, m: nat)
    requires 0 <= v < Pow2(b) && 0 <= c
    requires x == v + Pow2(b) * c + Pow2(b + t) * m
    ensures And(x, Pow2(b) - 1) == v && x / Pow2(b) == c + Pow2(t) * m
  {
    Pow2Add(b, t);
    MulDistrib(Pow2(b), c, Pow2(t), m);
    SplitAt(v, Pow2(b), c + Pow2(t) * m);
    AndLowMask(x, b);
  }

  /**
   * The round trip of the display-list encoder: unpacking what `pack`
   * produced for in-range arguments a1..an gives an..a1, paired with the
   * parameters in declared order, and a size of 4.
   */
  lemma {:induction false} DlRoundTrip(cmd: Command, args: seq<int>)
    requires Packable(cmd) && InRange(cmd.params, Reverse(args))
    ensures DlPackSpec(cmd, args).Ok? && |DlPackSpec(cmd, args).value| == 4
    ensures DlUnpackSpec(cmd, DlPackSpec(cmd, args).value) == Ok((Pair(cmd.params, Reverse(args)), 4))
  {
    var ps, vs := cmd.params, Reverse(args);
    var n := cmd.code * 0x100_0000 + Compose(ps, vs);
    DlPackWord(cmd, args, n);
    ComposeBound(ps, vs);
    OpcodeOr(cmd, Compose(ps, vs));
    UnpackWord(cmd, n);
    FieldsOfWord(cmd, vs, n);
  }

  /** `DlCmd.unpack` of the 4 bytes of a 32-bit word reads the fields of that word. */
  lemma {:induction false} UnpackWord(cmd: Command, n: int)
    requires 0 <= n < 0x1_0000_0000
    ensures DlUnpackSpec(cmd, LeBytes(n, 4)) == Ok((Fields(cmd.params, n, 0), 4))
  {
    var bs := LeBytes(n, 4);
    assert Take(bs, 4) == bs;
    StructRoundTrip(U32, n);
  }

  /** The fields of a word holding the opcode above in-range fields are those fields. */
  lemma {:induction false} FieldsOfWord(cmd: Command, vs: seq<int>, w: nat)
    requires Packable(cmd) && InRange(cmd.params, vs) && w == cmd.code * 0x100_0000 + Compose(cmd.params, vs)
    ensures Fields(cmd.params, w, 0) == Pair(cmd.params, vs)
  {
    var m := OpcodeAboveFields(cmd);
    assert w / Pow2(0) == w;
    FieldsCompose(cmd.params, vs, w, 0, m);
  }

  /** The opcode's bits lie above every field's: `code << 24` is a multiple of 2^TotalBits. */
  lemma {:induction false} OpcodeAboveFields(cmd: Command) returns (m: nat)
    requires Packable(cmd)
    ensures cmd.code * 0x100_0000 == Pow2(TotalBits(cmd.params)) * m
  {
    Pow2Values();
    var c := cmd.code * 0x100_0000;
    var p := Pow2(TotalBits(cmd.params));
    ExactDiv(c, p);
    DivNat(c, p);
    m := c / p;
  }

  /** Byte 3 of a packed word is the opcode when the fields fit 24 bits. */
  lemma {:induction false} DlPackOpcodeByte(cmd: Command, args: seq<int>)
    requires Packable(cmd) && InRange(cmd.params, Reverse(args)) && TotalBits(cmd.params) <= 24
    ensures DlPackSpec(cmd, args).Ok? && DlPackSpec(cmd, args).value[3] == cmd.code
  {
    var v := Compose(cmd.params, Reverse(args));
    var n := cmd.code * 0x100_0000 + v;
    ComposeBound(cmd.params, Reverse(args));
    Pow2Monotone(TotalBits(cmd.params), 24);
    TopByte(cmd.code, v, n);
    DlPackWord(cmd, args, n);
  }

  /** Byte 3 of `code << 24 | v` is the code when `v` fits 24 bits. */
  lemma {:induction false} TopByte(code: nat, v: int, n: int)
    requires code < 256 && 0 <= v < Pow2(24) && n == code * 0x100_0000 + v
    ensures LeBytes(n, 4)[3] == code
  {
    Pow2Values();
    LeBytesAt(n, 4, 3);
    assert n == v + 0x100_0000 * code;
    SplitAt(v, 0x100_0000, code);
    assert n / Pow2(24) == code;
    DivModUnique(code, 256, 0, code);
  }

  // ------------------------------------------------------------ CpCmd

  /** The loop of `CpCmd.pack` over `zip(params, args)`, continued from `acc`. */
  function CpFold(k: Packer, ps: seq<Param>, args: seq<Value>, acc: seq<Byte>): Result<seq<Byte>>
    decreases |ps|
  {
    if ps == [] || args == [] then Ok(acc)
    else if ps[0].offset.None? then Err(TypeError)         // `ljust(None)`
    else if ps[0].typedef.kind.Block? then Err(AttributeError)  // `x.param` of a plain argument
    else match PackWith(k, ps[0], args[0])
      case Err(e) => Err(e)
      case Ok(bytes) => CpFold(k, ps[1..], args[1..], Ljust(acc, ps[0].offset.value) + bytes)
  }

  /** `CpCmd.pack(*args)`: the header word, each argument at its offset, zero padding to a multiple of 4. */
  function CpPackSpec(k: Packer, cmd: Command, args: seq<Value>): Result<seq<Byte>>
  {
    match StructPack(U32, Or(0xFFFF_FF00, cmd.code))
    case Err(e) => Err(e)
    case Ok(header) =>
      match CpFold(k, cmd.params, args, header)
      case Err(e) => Err(e)
      case Ok(r) => Ok(Ljust(r, Align(|r|, 4)))
  }

  /** `CpCmd.pack`, with `k` naming the `Param.pack` it calls. */
  method CpPack(k: Packer, cmd: Command, args: seq<Value>) returns (r: Result<seq<Byte>>)
    ensures r == CpPackSpec(k, cmd, args)
  {
    var header := StructPack(U32, Or(0xFFFF_FF00, cmd.code));
    if header.Err? {
      return Err(header.error);
    }
    var result := CpPackParams(k, cmd.params, args, header.value);
    if result.Err? {
      return Err(result.error);
    }
    return Ok(Ljust(result.value, Align(|result.value|, 4)));
  }

  /** The loop of `CpCmd.pack`: each argument packed at its parameter's offset after `acc`. */
  method CpPackParams(k: Packer, ps: seq<Param>, args: seq<Value>, acc: seq<Byte>) returns (r: Result<seq<Byte>>)
    ensures r == CpFold(k, ps, args, acc)
  {
    var result := acc;
    var n := if |ps| < |args| then |ps| else |args|;
    var i := 0;
    while i < n
      invariant 0 <= i <= n
      invariant CpFold(k, ps, args, acc) == CpFold(k, ps[i..], args[i..], result)
    {
      var param := ps[i];
      assert ps[i..][0] == param && args[i..][0] == args[i];
      assert ps[i..][1..] == ps[i + 1..] && args[i..][1..] == args[i + 1..];
      if param.offset.None? {
        return Err(TypeError);
      }
      result := Ljust(result, param.offset.value);
      if param.typedef.kind.Block? {
        return Err(AttributeError);
      }
      var packed := PackWith(k, param, args[i]);
      if packed.Err? {
        return Err(packed.error);
      }
      result := result + packed.value;
      i := i + 1;
    }
    return Ok(result);
  }

  /** The header word of a co-processor command. */
  function HeaderWord(code: nat): nat
  {
    0xFFFF_FF00 + code
  }

  /** The 4 bytes of the header word, least significant first. */
  function CpHeader(code: nat): (h: seq<Byte>)
    ensures |h| == 4
  {
    LeBytes(HeaderWord(code), 4)
  }

  /** The header word is `code` or-ed into 0xffffff00, and its 4 little-endian bytes read back to it. */
  lemma {:induction false} CpHeaderBytes(code: nat)
    requires code < 256
    ensures StructPack(U32, Or(0xFFFF_FF00, code)) == Ok(CpHeader(code))
    ensures FromLe(CpHeader(code)) == HeaderWord(code)
  {
    var w := HeaderWord(code);
    HeaderOr(code, w);
    HeaderFits(w);
  }

  /** Or-ing a byte into 0xffffff00 is adding it. */
  lemma {:induction false} HeaderOr(code: nat, w: nat)
    requires code < 256 && w == 0xFFFF_FF00 + code
    ensures Or(0xFFFF_FF00, code) == w
  {
    Pow2Values();
    OrCommutes(0xFFFF_FF00, code);
    OrDisjoint(code, 0xFFFF_FF00, 8);
  }

  /** A 32-bit word packs as '<L' to its 4 little-endian bytes, which read back to it. */
  lemma {:induction false} HeaderFits(w: nat)
    requires w < 0x1_0000_0000
    ensures StructPack(U32, w) == Ok(LeBytes(w, 4))
    ensures FromLe(LeBytes(w, 4)) == w
  {
    Pow2Values();
    LeBytesDecode(w, 4);
    DivModUnique(w, Pow2(32), 0, w);
  }

  /** The parameters have offsets from byte `from` on, each ending at or before the next begins. */
  predicate InOrder(ps: seq<Param>, from: nat)
    decreases |ps|
  {
    ps == [] || (ps[0].offset.Some? && from <= ps[0].offset.value && InOrder(ps[1..], ps[0].offset.value + Size(ps[0])))
  }

  /** Every argument is an integer for an integer parameter with an offset, and packs. */
  predicate Packs(k: Packer, ps: seq<Param>, args: seq<Value>)
  {
    |ps| == |args|
    && forall i :: 0 <= i < |ps| ==> IsInteger(ps[i]) && ps[i].offset.Some? && args[i].Int? && PackWith(k, ps[i], args[i]).Ok?
  }

  /** `bs` sits in `r` from byte `off`. */
  predicate At(r: seq<Byte>, off: nat, bs: seq<Byte>)
  {
    off + |bs| <= |r| && r[off..off + |bs|] == bs
  }

  /** `initialise` puts the parameters in order from where it starts. */
  lemma {:induction false} InitialisedInOrder(ps: seq<Param>, start: nat)
    ensures InOrder(Initialised(ps, start), start)
    decreases |ps|
  {
    if ps != [] {
      var size := Size(ps[0]);
      var off := Place(start, size);
      var next := off + size;
      var qs := Initialised(ps, start);
      InitialisedUnfold(ps, start, size, off, next);
      InitialisedInOrder(ps[1..], next);
      assert qs[0].offset.value == off && Size(qs[0]) == size;
    }
  }

  /**
   * The loop of `CpCmd.pack` over parameters in order: each argument lands at
   * its parameter's offset, what was already there stays, and the result ends
   * where the last parameter does.
   */
  lemma {:induction false} CpFoldLayout(k: Packer, ps: seq<Param>, args: seq<Value>, acc: seq<Byte>, from: nat)
    requires InOrder(ps, from) && |acc| <= from && Packs(k, ps, args)
    ensures CpFold(k, ps, args, acc).Ok?
    ensures var r := CpFold(k, ps, args, acc).value;
      |acc| <= |r| && r[..|acc|] == acc
    ensures ps == [] ==> CpFold(k, ps, args, acc).value == acc
    ensures ps != [] ==> |CpFold(k, ps, args, acc).value| == ps[|ps| - 1].offset.value + Size(ps[|ps| - 1])
    ensures var r := CpFold(k, ps, args, acc).value;
      forall i :: 0 <= i < |ps| ==> At(r, ps[i].offset.value, PackWith(k, ps[i], args[i]).value)
    decreases |ps|
  {
    if ps != [] {
      var p := ps[0];
      var off := p.offset.value;
      var b := PackWith(k, p, args[0]).value;
      var next := off + Size(p);
      var acc1 := Ljust(acc, off) + b;
      CpFoldStep(k, ps, args, acc, off, b, next, acc1);
      PacksTail(k, ps, args);
      CpFoldLayout(k, ps[1..], args[1..], acc1, next);
      var r := CpFold(k, ps, args, acc).value;
      PrefixAt(r, acc, off, b, acc1);
      AtTail(k, ps, args, r);
    }
  }

  /** One pass of the loop of `CpCmd.pack`: the first argument goes at its offset. */
  lemma {:induction false} CpFoldStep(k: Packer, ps: seq<Param>, args: seq<Value>, acc: seq<Byte>,
                                      off: nat, b: seq<Byte>, next: nat, acc1: seq<Byte>)
    requires ps != [] && Packs(k, ps, args) && |acc| <= off
    requires off == ps[0].offset.value && b == PackWith(k, ps[0], args[0]).value
    requires next == off + Size(ps[0]) && acc1 == Ljust(acc, off) + b
    ensures |acc1| == next
    ensures CpFold(k, ps, args, acc) == CpFold(k, ps[1..], args[1..], acc1)
  {
    PackInteger(k, ps[0], args[0].i);
  }

  /** The rest of the arguments pack too. */
  lemma {:induction false} PacksTail(k: Packer, ps: seq<Param>, args: seq<Value>)
    requires ps != [] && Packs(k, ps, args)
    ensures Packs(k, ps[1..], args[1..])
  {
    assert forall i :: 0 <= i < |ps| - 1 ==> ps[1..][i] == ps[i + 1] && args[1..][i] == args[i + 1];
  }

  /** A result that starts with `acc` padded to `off` and then `b` keeps `acc` and holds `b` at `off`. */
  lemma {:induction false} PrefixAt(r: seq<Byte>, acc: seq<Byte>, off: nat, b: seq<Byte>, acc1: seq<Byte>)
    requires |acc| <= off && acc1 == Ljust(acc, off) + b
    requires |acc1| <= |r| && r[..|acc1|] == acc1
    ensures |acc| <= |r| && r[..|acc|] == acc
    ensures At(r, off, b)
  {
    assert r[..|acc|] == acc1[..|acc|];
    assert r[off..off + |b|] == acc1[off..off + |b|];
  }

  /** What the rest of the loop places, the whole loop places, one index on. */
  lemma {:induction false} AtTail(k: Packer, ps: seq<Param>, args: seq<Value>, r: seq<Byte>)
    requires ps != [] && Packs(k, ps, args)
    requires At(r, ps[0].offset.value, PackWith(k, ps[0], args[0]).value)
    requires forall i :: 0 <= i < |ps| - 1 ==> At(r, ps[1..][i].offset.value, PackWith(k, ps[1..][i], args[1..][i]).value)
    ensures forall i :: 0 <= i < |ps| ==> At(r, ps[i].offset.value, PackWith(k, ps[i], args[i]).value)
  {
    forall i | 0 < i < |ps|
      ensures At(r, ps[i].offset.value, PackWith(k, ps[i], args[i]).value)
    {
      assert ps[i] == ps[1..][i - 1] && args[i] == args[1..][i - 1];
    }
  }

  /**
   * A packed co-processor command: the header word in bytes 0-3, each
   * argument's packed bytes at its parameter's offset, a multiple of 4 bytes
   * in all.
   */
  predicate CpImage(k: Packer, cmd: Command, args: seq<Value>, r: seq<Byte>)
    requires Packs(k, cmd.params, args)
  {
    4 <= |r| && |r| % 4 == 0 && r[..4] == CpHeader(cmd.code)
    && forall i :: 0 <= i < |args| ==> At(r, cmd.params[i].offset.value, PackWith(k, cmd.params[i], args[i]).value)
  }

  /**
   * `CpCmd.pack` of a command laid out by `initialise`, with integer
   * arguments that pack, gives the image of the command, exactly
   * `CpCmd.size` bytes long. This holds for either packer.
   */
  lemma {:induction false} CpPackLayout(k: Packer, cmd: Command, args: seq<Value>, ps: seq<Param>)
    requires cmd.code < 256 && cmd.params == Initialised(ps, 4) && Packs(k, cmd.params, args)
    ensures CpPackSpec(k, cmd, args).Ok? && CpSize(cmd).Ok?
    ensures |CpPackSpec(k, cmd, args).value| == CpSize(cmd).value
    ensures CpImage(k, cmd, args, CpPackSpec(k, cmd, args).value)
  {
    InitialisedInOrder(ps, 4);
    CpPackInOrder(k, cmd, args);
  }

  /** `CpPackLayout` for any parameters in order from byte 4. */
  lemma {:induction false} CpPackInOrder(k: Packer, cmd: Command, args: seq<Value>)
    requires cmd.code < 256 && InOrder(cmd.params, 4) && Packs(k, cmd.params, args)
    ensures CpPackSpec(k, cmd, args).Ok? && CpSize(cmd).Ok?
    ensures |CpPackSpec(k, cmd, args).value| == CpSize(cmd).value
    ensures CpImage(k, cmd, args, CpPackSpec(k, cmd, args).value)
  {
    var header := CpHeader(cmd.code);
    CpHeaderBytes(cmd.code);
    CpFoldLayout(k, cmd.params, args, header, 4);
    var f := CpFold(k, cmd.params, args, header).value;
    CpPackPads(k, cmd, args, header, f);
    CpSizeIsEnd(cmd, f);
    PaddedImage(k, cmd, args, f);
  }

  /** Padding the loop's result to a multiple of 4 gives the command's image. */
  lemma {:induction false} PaddedImage(k: Packer, cmd: Command, args: seq<Value>, f: seq<Byte>)
    requires Packs(k, cmd.params, args) && 4 <= |f| && f[..4] == CpHeader(cmd.code)
    requires forall i :: 0 <= i < |cmd.params| ==> At(f, cmd.params[i].offset.value, PackWith(k, cmd.params[i], args[i]).value)
    ensures CpImage(k, cmd, args, Ljust(f, Align(|f|, 4)))
  {
    var r := Ljust(f, Align(|f|, 4));
    PadKeeps(k, cmd.params, args, f, r);
    assert r[..4] == f[..4] by {
      assert r[..|f|] == f;
    }
  }

  /**
   * As written, a command whose first parameter is a signed 16-bit one
   * cannot be packed with a negative first argument: `struct.pack('<H')`
   * raises before the rest is looked at. The corrected packer packs the
   * first argument whenever it fits 16 signed bits.
   */
  lemma {:induction false} NegativeFirstRejected(cmd: Command, args: seq<Value>, v: int)
    requires cmd.code < 256 && cmd.params != [] && args != [] && args[0] == Int(v)
    requires IsInteger(cmd.params[0]) && cmd.params[0].offset.Some?
    requires cmd.params[0].typedef.signed && Size(cmd.params[0]) == 2 && Scaled(cmd.params[0], v) < 0
    ensures CpPackSpec(AsWritten, cmd, args) == Err(StructError)
    ensures -0x8000 <= Scaled(cmd.params[0], v) ==> PackWith(Corrected, cmd.params[0], args[0]).Ok?
  {
    CpHeaderBytes(cmd.code);
    PackInteger(AsWritten, cmd.params[0], v);
    PackInteger(Corrected, cmd.params[0], v);
  }

  /** `CpCmd.pack` pads what its loop built to a multiple of 4. */
  lemma {:induction false} CpPackPads(k: Packer, cmd: Command, args: seq<Value>, header: seq<Byte>, f: seq<Byte>)
    requires StructPack(U32, Or(0xFFFF_FF00, cmd.code)) == Ok(header)
    requires CpFold(k, cmd.params, args, header) == Ok(f)
    ensures CpPackSpec(k, cmd, args) == Ok(Ljust(f, Align(|f|, 4)))
  {
  }

  /** `CpCmd.size` is where the loop's result ends, rounded up to 4. */
  lemma {:induction false} CpSizeIsEnd(cmd: Command, f: seq<Byte>)
    requires |f| >= 4
    requires cmd.params == [] ==> |f| == 4
    requires cmd.params != [] ==>
      cmd.params[|cmd.params| - 1].offset.Some? && |f| == cmd.params[|cmd.params| - 1].offset.value + Size(cmd.params[|cmd.params| - 1])
    ensures CpSize(cmd) == Ok(Align(|f|, 4))
  {
  }

  /** Padding keeps every argument where it was. */
  lemma {:induction false} PadKeeps(k: Packer, ps: seq<Param>, args: seq<Value>, f: seq<Byte>, r: seq<Byte>)
    requires Packs(k, ps, args) && r == Ljust(f, Align(|f|, 4))
    requires forall i :: 0 <= i < |ps| ==> At(f, ps[i].offset.value, PackWith(k, ps[i], args[i]).value)
    ensures forall i :: 0 <= i < |ps| ==> At(r, ps[i].offset.value, PackWith(k, ps[i], args[i]).value)
  {
    forall i | 0 <= i < |ps|
      ensures At(r, ps[i].offset.value, PackWith(k, ps[i], args[i]).value)
    {
      var off, bs := ps[i].offset.value, PackWith(k, ps[i], args[i]).value;
      assert At(f, off, bs);
      assert r[..|f|] == f;
      assert r[off..off + |bs|] == f[off..off + |bs|];
    }
  }

  /** `CpCmd.size`: 4 for no parameters, else the end of the last one rounded up to 4. */
  function CpSize(cmd: Command): Result<nat>
  {
    if cmd.params == [] then Ok(4)
    else
      var last := cmd.params[|cmd.params| - 1];
      if last.offset.None? then Err(TypeError)
      else Ok(Align(last.offset.value + Size(last), 4))
  }

  // ------------------------------------------------------------ initialise

  /** Where `initialise` puts a parameter of `size` bytes at the running offset: aligned to its size, or left there when the size is zero. */
  function Place(offset: nat, size: nat): (off: nat)
    ensures offset <= off
  {
    if size != 0 then Align(offset, size) else offset
  }

  /** The offsets `initialise` gives a command's parameters, starting at byte `offset`. */
  function Initialised(ps: seq<Param>, offset: nat): (qs: seq<Param>)
    ensures |qs| == |ps|
  {
    if ps == [] then []
    else
      var size := Size(ps[0]);
      var off := Place(offset, size);
      [ps[0].(offset := Some(off))] + Initialised(ps[1..], off + size)
  }

  /** The offset of parameter `i`, once set. */
  function Off(ps: seq<Param>, i: nat): nat
    requires i < |ps| && ps[i].offset.Some?
  {
    ps[i].offset.value
  }

  /**
   * `initialise` lays the parameters out in order from `start`: each keeps
   * its name and type and gets an offset at or after `start`, aligned to its
   * own size, and each ends at or before the next one begins.
   */
  lemma {:induction false} InitialisedLayout(ps: seq<Param>, start: nat)
    ensures var qs := Initialised(ps, start);
      forall i :: 0 <= i < |ps| ==>
        qs[i] == ps[i].(offset := qs[i].offset) && qs[i].offset.Some?
        && Off(qs, i) >= start
        && (Size(ps[i]) != 0 ==> Off(qs, i) % Size(ps[i]) == 0)
    ensures var qs := Initialised(ps, start);
      forall i, j :: 0 <= i < j < |ps| ==> Off(qs, i) + Size(ps[i]) <= Off(qs, j)
  {
    InitialisedShape(ps, start);
    InitialisedOrdered(ps, start);
  }

  /** Each parameter keeps its name and type and gets an aligned offset at or after `start`. */
  lemma {:induction false} InitialisedShape(ps: seq<Param>, start: nat)
    ensures var qs := Initialised(ps, start);
      forall i :: 0 <= i < |ps| ==>
        qs[i] == ps[i].(offset := qs[i].offset) && qs[i].offset.Some?
        && qs[i].offset.value >= start
        && (Size(ps[i]) != 0 ==> qs[i].offset.value % Size(ps[i]) == 0)
  {
    forall i | 0 <= i < |ps| {
      ShapeAt(ps, start, i);
    }
  }

  /** Each parameter ends at or before every later one begins. */
  lemma {:induction false} InitialisedOrdered(ps: seq<Param>, start: nat)
    ensures var qs := Initialised(ps, start);
      forall i, j :: 0 <= i < j < |ps| ==>
        qs[i].offset.Some? && qs[j].offset.Some? && qs[i].offset.value + Size(ps[i]) <= qs[j].offset.value
  {
    forall i, j | 0 <= i < j < |ps| {
      OrderedAt(ps, start, i, j);
    }
  }

  /** The first parameter placed, and the layout of the rest after it. */
  lemma {:induction false} InitialisedUnfold(ps: seq<Param>, start: nat, size: nat, off: nat, next: nat)
    requires ps != [] && size == Size(ps[0]) && off == Place(start, size) && next == off + size
    ensures Initialised(ps, start) == [ps[0].(offset := Some(off))] + Initialised(ps[1..], next)
    ensures Initialised(ps, start)[0] == ps[0].(offset := Some(off))
    ensures Initialised(ps, start)[1..] == Initialised(ps[1..], next)
  {
  }

  /** Parameter `i` keeps its name and type and gets an aligned offset at or after `start`. */
  lemma {:induction false} ShapeAt(ps: seq<Param>, start: nat, i: nat)
    requires i < |ps|
    ensures var q := Initialised(ps, start)[i];
      q == ps[i].(offset := q.offset) && q.offset.Some? && q.offset.value >= start
      && (Size(ps[i]) != 0 ==> q.offset.value % Size(ps[i]) == 0)
    decreases i
  {
    var size := Size(ps[0]);
    var off := Place(start, size);
    var next := off + size;
    InitialisedUnfold(ps, start, size, off, next);
    if i > 0 {
      var qs := Initialised(ps, start);
      ShapeAt(ps[1..], next, i - 1);
      assert qs[i] == qs[1..][i - 1] && ps[i] == ps[1..][i - 1];
    }
  }

  /** Parameter `i` ends at or before parameter `j` begins. */
  lemma {:induction false} OrderedAt(ps: seq<Param>, start: nat, i: nat, j: nat)
    requires i < j < |ps|
    ensures var qs := Initialised(ps, start);
      qs[i].offset.Some? && qs[j].offset.Some? && qs[i].offset.value + Size(ps[i]) <= qs[j].offset.value
    decreases i
  {
    var size := Size(ps[0]);
    var off := Place(start, size);
    var next := off + size;
    var qs := Initialised(ps, start);
    InitialisedUnfold(ps, start, size, off, next);
    ShapeAt(ps[1..], next, j - 1);
    assert qs[j] == qs[1..][j - 1];
    if i > 0 {
      OrderedAt(ps[1..], next, i - 1, j - 1);
      assert qs[i] == qs[1..][i - 1] && ps[i] == ps[1..][i - 1];
    }
  }

  /** `initialise` rewrites only offsets, so a second pass gives the same layout. */
  lemma {:induction false} InitialisedIdempotent(ps: seq<Param>, start: nat)
    ensures Initialised(Initialised(ps, start), start) == Initialised(ps, start)
    decreases |ps|
  {
    if ps != [] {
      var size := Size(ps[0]);
      var off := Place(start, size);
      var next := off + size;
      var qs := Initialised(ps, start);
      InitialisedUnfold(ps, start, size, off, next);
      assert Size(qs[0]) == size;
      InitialisedIdempotent(ps[1..], next);
      InitialisedUnfold(qs, start, size, off, next);
    }
  }

  /** One pass of the loop of `initialise`: the layout from parameter `i` on is parameter `i` laid out, then the rest. */
  lemma {:induction false} LayOutStep(ps: seq<Param>, i: nat, start: nat, size: nat, off: nat, whole: seq<Param>)
    requires i < |ps| == |whole| && Initialised(ps[i..], start) == whole[i..]
    requires size == Size(ps[i]) && off == Place(start, size)
    ensures whole[i] == ps[i].(offset := Some(off))
    ensures Initialised(ps[i + 1..], off + size) == whole[i + 1..]
  {
    var rest := ps[i..];
    assert rest != [] && rest[0] == ps[i] && rest[1..] == ps[i + 1..];
    assert whole[i..][0] == whole[i] && whole[i..][1..] == whole[i + 1..];
  }

  /** The loop of `initialise` over one command's parameters. */
  method LayOut(ps: seq<Param>) returns (qs: seq<Param>)
    ensures qs == Initialised(ps, 4)
  {
    ghost var whole := Initialised(ps, 4);
    qs := ps;
    var offset: nat := 4;
    var i := 0;
    assert ps[0..] == ps && whole[0..] == whole;
    while i < |ps|
      invariant 0 <= i <= |ps| && |qs| == |ps|
      invariant Initialised(ps[i..], offset) == whole[i..]
      invariant forall k :: 0 <= k < i ==> qs[k] == whole[k]
      invariant forall k :: i <= k < |ps| ==> qs[k] == ps[k]
    {
      var param := qs[i];
      var size := Size(param);
      ghost var before := offset;
      if size != 0 {
        offset := Align(offset, size);
      }
      LayOutStep(ps, i, before, size, offset, whole);
      qs := qs[i := param.(offset := Some(offset))];
      offset := offset + size;
      i := i + 1;
    }
    assert qs == whole;
  }
}
