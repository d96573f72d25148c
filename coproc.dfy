// Co-processor command images of src/include/Graphics/EVE/command_defs.h.
// Each emitter fills a local `struct Inst` (a uint32_t 0xffffffxx header and
// the arguments as 16- and 32-bit members) and appends its bytes. The model
// gives that image, laid out by the C natural-alignment rule: a 16-bit member
// sits at an even offset, a 32-bit member at a multiple of 4, and the struct
// is rounded up to a multiple of 4. Padding bytes are modelled as zero.
// Signed 16-bit arguments are carried as their bit pattern.
// The string and data tails that some emitters append after the image are
// `StringImage` and `DataImage` below.
module Coproc {
  import opened Bytes
  import opened Eve

  /** GRADIENTA (0xffffff57) has no entry in the CoproCommand enumeration; command_defs.h uses the literal. */
  const CMD_GRADIENTA: bv32 := 0x57

  /** The little-endian command word 0xffffff00 | code. */
  function Header(code: bv32): (img: seq<byte>)
    ensures |img| == 4
    ensures U32At(img, 0) == MakeCoprocCmdWord(code)
  {
    Le32Decodes(MakeCoprocCmdWord(code));
    Le32(MakeCoprocCmdWord(code))
  }

  /** The number of zero bytes that bring `n` up to a multiple of 4. */
  function PadTo4(n: nat): (p: nat)
    ensures p < 4 && (n + p) % 4 == 0
  {
    (4 - n % 4) % 4
  }

  /** What `write(const String&)` appends: the characters, a NUL, then zero bytes up to a multiple of 4. */
  function StringImage(s: seq<byte>): (img: seq<byte>)
    ensures |img| % 4 == 0 && |s| < |img| <= |s| + 4
    ensures img[..|s|] == s && img[|s|] == 0
    ensures forall i :: |s| <= i < |img| ==> img[i] == 0
  {
    s + [0] + Zeros(PadTo4(|s| + 1))
  }

  /** What `write(data, len); align();` appends when the buffer is already 4-aligned. */
  function DataImage(data: seq<byte>): (img: seq<byte>)
    ensures |img| % 4 == 0 && |data| <= |img| < |data| + 4
    ensures img[..|data|] == data
    ensures forall i :: |data| <= i < |img| ==> img[i] == 0
  {
    data + Zeros(PadTo4(|data|))
  }

  /** Appends a uint16_t member; what was laid out before keeps its values. */
  function Put16(s: seq<byte>, v: bv16): (r: seq<byte>)
    ensures |r| == |s| + 2
    ensures U16At(r, |s|) == v
    ensures forall off: nat :: off + 2 <= |s| ==> U16At(r, off) == U16At(s, off)
    ensures forall off: nat :: off + 4 <= |s| ==> U32At(r, off) == U32At(s, off)
  {
    var r := s + Le16(v);
    assert r[|s|..|s| + 2] == Le16(v);
    r
  }

  /** Appends a uint32_t member; what was laid out before keeps its values. */
  function Put32(s: seq<byte>, v: bv32): (r: seq<byte>)
    ensures |r| == |s| + 4
    ensures U32At(r, |s|) == v
    ensures forall off: nat :: off + 2 <= |s| ==> U16At(r, off) == U16At(s, off)
    ensures forall off: nat :: off + 4 <= |s| ==> U32At(r, off) == U32At(s, off)
  {
    var r := s + Le32(v);
    assert r[|s|..|s| + 4] == Le32(v);
    Le32Decodes(v);
    r
  }

  /** `append` (the fixed part). */
  function Append(ptr: bv32, num: bv32): (img: seq<byte>)
    ensures |img| == 12
    ensures U32At(img, 0) == MakeCoprocCmdWord(CMD_APPEND)
    ensures U32At(img, 4) == ptr
    ensures U32At(img, 8) == num
  {
    Put32(Put32(Header(CMD_APPEND), ptr), num)
  }

  /** `bgcolor` (the fixed part). */
  function Bgcolor(color: bv32): (img: seq<byte>)
    ensures |img| == 8
    ensures U32At(img, 0) == MakeCoprocCmdWord(CMD_BGCOLOR)
    ensures U32At(img, 4) == color
  {
    Put32(Header(CMD_BGCOLOR), color)
  }

  /** `button` (the fixed part; write(s);). */
  function Button(x: bv16, y: bv16, w: bv16, h: bv16, font: bv8, options: bv16): (img: seq<byte>)
    ensures |img| == 16
    ensures U32At(img, 0) == MakeCoprocCmdWord(CMD_BUTTON)
    ensures U16At(img, 4) == x
    ensures U16At(img, 6) == y
    ensures U16At(img, 8) == w
    ensures U16At(img, 10) == h
    ensures U16At(img, 12) == (font as bv16)
    ensures U16At(img, 14) == options
  {
    Put16(Put16(Put16(Put16(Put16(Put16(Header(CMD_BUTTON), x), y), w), h), font as bv16), options)
  }

  /** `calibrate` (the fixed part). */
  function Calibrate(result: bv32): (img: seq<byte>)
    ensures |img| == 8
    ensures U32At(img, 0) == MakeCoprocCmdWord(CMD_CALIBRATE)
    ensures U32At(img, 4) == result
  {
    Put32(Header(CMD_CALIBRATE), result)
  }

  /** `clock` (the fixed part). */
  function Clock(x: bv16, y: bv16, r: bv16, options: bv16, h: bv16, m: bv16, s: bv16, ms: bv16): (img: seq<byte>)
    ensures |img| == 20
    ensures U32At(img, 0) == MakeCoprocCmdWord(CMD_CLOCK)
    ensures U16At(img, 4) == x
    ensures U16At(img, 6) == y
    ensures U16At(img, 8) == r
    ensures U16At(img, 10) == options
    ensures U16At(img, 12) == h
    ensures U16At(img, 14) == m
    ensures U16At(img, 16) == s
    ensures U16At(img, 18) == ms
  {
    Put16(Put16(Put16(Put16(Put16(Put16(Put16(Put16(Header(CMD_CLOCK), x), y), r), options), h), m), s), ms)
  }

  /** `coldstart` (the fixed part). */
  function Coldstart(): (img: seq<byte>)
    ensures |img| == 4
    ensures U32At(img, 0) == MakeCoprocCmdWord(CMD_COLDSTART)
  {
    Header(CMD_COLDSTART)
  }

  /** `dial` (the fixed part). */
  function Dial(x: bv16, y: bv16, r: bv16, options: bv16, value: bv16): (img: seq<byte>)
    ensures |img| == 16
    ensures U32At(img, 0) == MakeCoprocCmdWord(CMD_DIAL)
    ensures U16At(img, 4) == x
    ensures U16At(img, 6) == y
    ensures U16At(img, 8) == r
    ensures U16At(img, 10) == options
    ensures U16At(img, 12) == value
    ensures U16At(img, 14) == 0
  {
    Put16(Put16(Put16(Put16(Put16(Put16(Header(CMD_DIAL), x), y), r), options), value), 0)
  }

  /** `dlstart` (the fixed part). */
  function Dlstart(): (img: seq<byte>)
    ensures |img| == 4
    ensures U32At(img, 0) == MakeCoprocCmdWord(CMD_DLSTART)
  {
    Header(CMD_DLSTART)
  }

  /** `fgcolor` (the fixed part). */
  function Fgcolor(color: bv32): (img: seq<byte>)
    ensures |img| == 8
    ensures U32At(img, 0) == MakeCoprocCmdWord(CMD_FGCOLOR)
    ensures U32At(img, 4) == color
  {
    Put32(Header(CMD_FGCOLOR), color)
  }

  /** `gauge` (the fixed part). */
  function Gauge(x: bv16, y: bv16, r: bv16, options: bv16, major: bv16, minor: bv16, value: bv16, range: bv16): (img: seq<byte>)
    ensures |img| == 20
    ensures U32At(img, 0) == MakeCoprocCmdWord(CMD_GAUGE)
    ensures U16At(img, 4) == x
    ensures U16At(img, 6) == y
    ensures U16At(img, 8) == r
    ensures U16At(img, 10) == options
    ensures U16At(img, 12) == major
    ensures U16At(img, 14) == minor
    ensures U16At(img, 16) == value
    ensures U16At(img, 18) == range
  {
    Put16(Put16(Put16(Put16(Put16(Put16(Put16(Put16(Header(CMD_GAUGE), x), y), r), options), major), minor), value), range)
  }

  /** `getmatrix` (the fixed part). */
  function Getmatrix(a: bv32, b: bv32, c: bv32, d: bv32, e: bv32, f: bv32): (img: seq<byte>)
    ensures |img| == 28
    ensures U32At(img, 0) == MakeCoprocCmdWord(CMD_GETMATRIX)
    ensures U32At(img, 4) == a
    ensures U32At(img, 8) == b
    ensures U32At(img, 12) == c
    ensures U32At(img, 16) == d
    ensures U32At(img, 20) == e
    ensures U32At(img, 24) == f
  {
    Put32(Put32(Put32(Put32(Put32(Put32(Header(CMD_GETMATRIX), a), b), c), d), e), f)
  }

  /** `getprops` (the fixed part). */
  function Getprops(ptr: bv32, width: bv32, height: bv32): (img: seq<byte>)
    ensures |img| == 16
    ensures U32At(img, 0) == MakeCoprocCmdWord(CMD_GETPROPS)
    ensures U32At(img, 4) == ptr
    ensures U32At(img, 8) == width
    ensures U32At(img, 12) == height
  {
    Put32(Put32(Put32(Header(CMD_GETPROPS), ptr), width), height)
  }

  /** `getptr` (the fixed part). */
  function Getptr(result: bv32): (img: seq<byte>)
    ensures |img| == 8
    ensures U32At(img, 0) == MakeCoprocCmdWord(CMD_GETPTR)
    ensures U32At(img, 4) == result
  {
    Put32(Header(CMD_GETPTR), result)
  }

  /** `gradcolor` (the fixed part). */
  function Gradcolor(color: bv32): (img: seq<byte>)
    ensures |img| == 8
    ensures U32At(img, 0) == MakeCoprocCmdWord(CMD_GRADCOLOR)
    ensures U32At(img, 4) == color
  {
    Put32(Header(CMD_GRADCOLOR), color)
  }

  /** `gradient` (the fixed part). */
  function Gradient(x0: bv16, y0: bv16, rgb0: bv32, x1: bv16, y1: bv16, rgb1: bv32): (img: seq<byte>)
    ensures |img| == 20
    ensures U32At(img, 0) == MakeCoprocCmdWord(CMD_GRADIENT)
    ensures U16At(img, 4) == x0
    ensures U16At(img, 6) == y0
    ensures U32At(img, 8) == rgb0
    ensures U16At(img, 12) == x1
    ensures U16At(img, 14) == y1
    ensures U32At(img, 16) == rgb1
  {
    Put32(Put16(Put16(Put32(Put16(Put16(Header(CMD_GRADIENT), x0), y0), rgb0), x1), y1), rgb1)
  }

  /** `gradienta` (the fixed part). */
  function Gradienta(x0: bv16, y0: bv16, argb0: bv32, x1: bv16, y1: bv16, argb1: bv32): (img: seq<byte>)
    ensures |img| == 20
    ensures U32At(img, 0) == MakeCoprocCmdWord(CMD_GRADIENTA)
    ensures U16At(img, 4) == x0
    ensures U16At(img, 6) == y0
    ensures U32At(img, 8) == argb0
    ensures U16At(img, 12) == x1
    ensures U16At(img, 14) == y1
    ensures U32At(img, 16) == argb1
  {
    Put32(Put16(Put16(Put32(Put16(Put16(Header(CMD_GRADIENTA), x0), y0), argb0), x1), y1), argb1)
  }

  /** `inflate` (the fixed part; write(data, data_length); then align();). */
  function Inflate(ptr: bv32): (img: seq<byte>)
    ensures |img| == 8
    ensures U32At(img, 0) == MakeCoprocCmdWord(CMD_INFLATE)
    ensures U32At(img, 4) == ptr
  {
    Put32(Header(CMD_INFLATE), ptr)
  }

  /** `interrupt` (the fixed part). */
  function Interrupt(ms: bv32): (img: seq<byte>)
    ensures |img| == 8
    ensures U32At(img, 0) == MakeCoprocCmdWord(CMD_INTERRUPT)
    ensures U32At(img, 4) == ms
  {
    Put32(Header(CMD_INTERRUPT), ms)
  }

  /** `keys` (the fixed part; write(s);). */
  function Keys(x: bv16, y: bv16, w: bv16, h: bv16, font: bv8, options: bv16): (img: seq<byte>)
    ensures |img| == 16
    ensures U32At(img, 0) == MakeCoprocCmdWord(CMD_KEYS)
    ensures U16At(img, 4) == x
    ensures U16At(img, 6) == y
    ensures U16At(img, 8) == w
    ensures U16At(img, 10) == h
    ensures U16At(img, 12) == (font as bv16)
    ensures U16At(img, 14) == options
  {
    Put16(Put16(Put16(Put16(Put16(Put16(Header(CMD_KEYS), x), y), w), h), font as bv16), options)
  }

  /** `loadidentity` (the fixed part). */
  function Loadidentity(): (img: seq<byte>)
    ensures |img| == 4
    ensures U32At(img, 0) == MakeCoprocCmdWord(CMD_LOADIDENTITY)
  {
    Header(CMD_LOADIDENTITY)
  }

  /** `loadimage` (the fixed part). */
  function Loadimage(ptr: bv32, options: bv16): (img: seq<byte>)
    ensures |img| == 12
    ensures U32At(img, 0) == MakeCoprocCmdWord(CMD_LOADIMAGE)
    ensures U32At(img, 4) == ptr
    ensures U16At(img, 8) == options
    ensures U16At(img, 10) == 0
  {
    Put16(Put16(Put32(Header(CMD_LOADIMAGE), ptr), options), 0)
  }

  /** `logo` (the fixed part). */
  function Logo(): (img: seq<byte>)
    ensures |img| == 4
    ensures U32At(img, 0) == MakeCoprocCmdWord(CMD_LOGO)
  {
    Header(CMD_LOGO)
  }

  /** `mediafifo` (the fixed part). */
  function Mediafifo(ptr: bv32, size: bv32): (img: seq<byte>)
    ensures |img| == 12
    ensures U32At(img, 0) == MakeCoprocCmdWord(CMD_MEDIAFIFO)
    ensures U32At(img, 4) == ptr
    ensures U32At(img, 8) == size
  {
    Put32(Put32(Header(CMD_MEDIAFIFO), ptr), size)
  }

  /** `memcpy` (the fixed part). */
  function Memcpy(dest: bv32, src: bv32, num: bv32): (img: seq<byte>)
    ensures |img| == 16
    ensures U32At(img, 0) == MakeCoprocCmdWord(CMD_MEMCPY)
    ensures U32At(img, 4) == dest
    ensures U32At(img, 8) == src
    ensures U32At(img, 12) == num
  {
    Put32(Put32(Put32(Header(CMD_MEMCPY), dest), src), num)
  }

  /** `memcrc` (the fixed part). */
  function Memcrc(ptr: bv32, num: bv32, result: bv32): (img: seq<byte>)
    ensures |img| == 16
    ensures U32At(img, 0) == MakeCoprocCmdWord(CMD_MEMCRC)
    ensures U32At(img, 4) == ptr
    ensures U32At(img, 8) == num
    ensures U32At(img, 12) == result
  {
    Put32(Put32(Put32(Header(CMD_MEMCRC), ptr), num), result)
  }

  /** `memset` (the fixed part). */
  function Memset(ptr: bv32, value: bv8, num: bv32): (img: seq<byte>)
    ensures |img| == 16
    ensures U32At(img, 0) == MakeCoprocCmdWord(CMD_MEMSET)
    ensures U32At(img, 4) == ptr
    ensures U16At(img, 8) == (value as bv16)
    ensures U16At(img, 10) == 0
    ensures U32At(img, 12) == num
  {
    Put32(Put16(Put16(Put32(Header(CMD_MEMSET), ptr), value as bv16), 0), num)
  }

  /** `memwrite` (the fixed part; write(data, num); then align();). */
  function Memwrite(ptr: bv32, num: bv32): (img: seq<byte>)
    ensures |img| == 12
    ensures U32At(img, 0) == MakeCoprocCmdWord(CMD_MEMWRITE)
    ensures U32At(img, 4) == ptr
    ensures U32At(img, 8) == num
  {
    Put32(Put32(Header(CMD_MEMWRITE), ptr), num)
  }

  /** `memzero` (the fixed part). */
  function Memzero(ptr: bv32, num: bv32): (img: seq<byte>)
    ensures |img| == 12
    ensures U32At(img, 0) == MakeCoprocCmdWord(CMD_MEMZERO)
    ensures U32At(img, 4) == ptr
    ensures U32At(img, 8) == num
  {
    Put32(Put32(Header(CMD_MEMZERO), ptr), num)
  }

  /** `number` (the fixed part). */
  function Number(x: bv16, y: bv16, font: bv8, options: bv16, n: bv32): (img: seq<byte>)
    ensures |img| == 16
    ensures U32At(img, 0) == MakeCoprocCmdWord(CMD_NUMBER)
    ensures U16At(img, 4) == x
    ensures U16At(img, 6) == y
    ensures U16At(img, 8) == (font as bv16)
    ensures U16At(img, 10) == options
    ensures U32At(img, 12) == n
  {
    Put32(Put16(Put16(Put16(Put16(Header(CMD_NUMBER), x), y), font as bv16), options), n)
  }

  /** `playvideo` (the fixed part). */
  function Playvideo(options: bv16): (img: seq<byte>)
    ensures |img| == 8
    ensures U32At(img, 0) == MakeCoprocCmdWord(CMD_PLAYVIDEO)
    ensures U16At(img, 4) == options
    ensures U16At(img, 6) == 0
  {
    Put16(Put16(Header(CMD_PLAYVIDEO), options), 0)
  }

  /** `progress` (the fixed part). */
  function Progress(x: bv16, y: bv16, w: bv16, h: bv16, options: bv16, value: bv16, range: bv16): (img: seq<byte>)
    ensures |img| == 20
    ensures U32At(img, 0) == MakeCoprocCmdWord(CMD_PROGRESS)
    ensures U16At(img, 4) == x
    ensures U16At(img, 6) == y
    ensures U16At(img, 8) == w
    ensures U16At(img, 10) == h
    ensures U16At(img, 12) == options
    ensures U16At(img, 14) == value
    ensures U16At(img, 16) == range
    ensures U16At(img, 18) == 0
  {
    Put16(Put16(Put16(Put16(Put16(Put16(Put16(Put16(Header(CMD_PROGRESS), x), y), w), h), options), value), range), 0)
  }

  /** `regread` (the fixed part). */
  function Regread(ptr: bv32, result: bv32): (img: seq<byte>)
    ensures |img| == 12
    ensures U32At(img, 0) == MakeCoprocCmdWord(CMD_REGREAD)
    ensures U32At(img, 4) == ptr
    ensures U32At(img, 8) == result
  {
    Put32(Put32(Header(CMD_REGREAD), ptr), result)
  }

  /** `romfont` (the fixed part). */
  function Romfont(font: bv8, romslot: bv8): (img: seq<byte>)
    ensures |img| == 12
    ensures U32At(img, 0) == MakeCoprocCmdWord(CMD_ROMFONT)
    ensures U32At(img, 4) == (font as bv32)
    ensures U16At(img, 8) == (romslot as bv16)
    ensures U16At(img, 10) == 0
  {
    Put16(Put16(Put32(Header(CMD_ROMFONT), font as bv32), romslot as bv16), 0)
  }

  /** `rotate` (the fixed part). */
  function Rotate(a: bv16): (img: seq<byte>)
    ensures |img| == 8
    ensures U32At(img, 0) == MakeCoprocCmdWord(CMD_ROTATE)
    ensures U32At(img, 4) == (a as bv32)
  {
    Put32(Header(CMD_ROTATE), a as bv32)
  }

  /** `scale` (the fixed part). */
  function Scale(sx: bv32, sy: bv32): (img: seq<byte>)
    ensures |img| == 12
    ensures U32At(img, 0) == MakeCoprocCmdWord(CMD_SCALE)
    ensures U32At(img, 4) == sx
    ensures U32At(img, 8) == sy
  {
    Put32(Put32(Header(CMD_SCALE), sx), sy)
  }

  /** `screensaver` (the fixed part). */
  function Screensaver(): (img: seq<byte>)
    ensures |img| == 4
    ensures U32At(img, 0) == MakeCoprocCmdWord(CMD_SCREENSAVER)
  {
    Header(CMD_SCREENSAVER)
  }

  /** `scrollbar` (the fixed part). */
  function Scrollbar(x: bv16, y: bv16, w: bv16, h: bv16, options: bv16, value: bv16, size: bv16, range: bv16): (img: seq<byte>)
    ensures |img| == 20
    ensures U32At(img, 0) == MakeCoprocCmdWord(CMD_SCROLLBAR)
    ensures U16At(img, 4) == x
    ensures U16At(img, 6) == y
    ensures U16At(img, 8) == w
    ensures U16At(img, 10) == h
    ensures U16At(img, 12) == options
    ensures U16At(img, 14) == value
    ensures U16At(img, 16) == size
    ensures U16At(img, 18) == range
  {
    Put16(Put16(Put16(Put16(Put16(Put16(Put16(Put16(Header(CMD_SCROLLBAR), x), y), w), h), options), value), size), range)
  }

  /** `setbase` (the fixed part). */
  function Setbase(b: bv8): (img: seq<byte>)
    ensures |img| == 8
    ensures U32At(img, 0) == MakeCoprocCmdWord(CMD_SETBASE)
    ensures U16At(img, 4) == (b as bv16)
    ensures U16At(img, 6) == 0
  {
    Put16(Put16(Header(CMD_SETBASE), b as bv16), 0)
  }

  /** `setbitmap` (the fixed part). */
  function Setbitmap(source: bv32, fmt: bv8, width: bv16, height: bv16): (img: seq<byte>)
    ensures |img| == 16
    ensures U32At(img, 0) == MakeCoprocCmdWord(CMD_SETBITMAP)
    ensures U32At(img, 4) == source
    ensures U16At(img, 8) == (fmt as bv16)
    ensures U16At(img, 10) == width
    ensures U16At(img, 12) == height
    ensures U16At(img, 14) == 0
  {
    Put16(Put16(Put16(Put16(Put32(Header(CMD_SETBITMAP), source), fmt as bv16), width), height), 0)
  }

  /** `setfont` (the fixed part). */
  function Setfont(font: bv8, ptr: bv32): (img: seq<byte>)
    ensures |img| == 12
    ensures U32At(img, 0) == MakeCoprocCmdWord(CMD_SETFONT)
    ensures U16At(img, 4) == (font as bv16)
    ensures U16At(img, 6) == 0
    ensures U32At(img, 8) == ptr
  {
    Put32(Put16(Put16(Header(CMD_SETFONT), font as bv16), 0), ptr)
  }

  /** `setfont2` (the fixed part). */
  function Setfont2(font: bv8, ptr: bv32, firstchar: bv8): (img: seq<byte>)
    ensures |img| == 16
    ensures U32At(img, 0) == MakeCoprocCmdWord(CMD_SETFONT2)
    ensures U16At(img, 4) == (font as bv16)
    ensures U16At(img, 6) == 0
    ensures U32At(img, 8) == ptr
    ensures U16At(img, 12) == (firstchar as bv16)
    ensures U16At(img, 14) == 0
  {
    Put16(Put16(Put32(Put16(Put16(Header(CMD_SETFONT2), font as bv16), 0), ptr), firstchar as bv16), 0)
  }

  /** `setmatrix` (the fixed part). */
  function Setmatrix(): (img: seq<byte>)
    ensures |img| == 4
    ensures U32At(img, 0) == MakeCoprocCmdWord(CMD_SETMATRIX)
  {
    Header(CMD_SETMATRIX)
  }

  /** `setrotate` (the fixed part). */
  function Setrotate(r: bv8): (img: seq<byte>)
    ensures |img| == 8
    ensures U32At(img, 0) == MakeCoprocCmdWord(CMD_SETROTATE)
    ensures U16At(img, 4) == (r as bv16)
    ensures U16At(img, 6) == 0
  {
    Put16(Put16(Header(CMD_SETROTATE), r as bv16), 0)
  }

  /** `setscratch` (the fixed part). */
  function Setscratch(handle: bv8): (img: seq<byte>)
    ensures |img| == 8
    ensures U32At(img, 0) == MakeCoprocCmdWord(CMD_SETSCRATCH)
    ensures U16At(img, 4) == (handle as bv16)
    ensures U16At(img, 6) == 0
  {
    Put16(Put16(Header(CMD_SETSCRATCH), handle as bv16), 0)
  }

  /** `sketch` (the fixed part). */
  function Sketch(): (img: seq<byte>)
    ensures |img| == 4
    ensures U32At(img, 0) == MakeCoprocCmdWord(CMD_SKETCH)
  {
    Header(CMD_SKETCH)
  }

  /** `slider` (the fixed part). */
  function Slider(x: bv16, y: bv16, w: bv16, h: bv16, options: bv16, value: bv16, range: bv16): (img: seq<byte>)
    ensures |img| == 20
    ensures U32At(img, 0) == MakeCoprocCmdWord(CMD_SLIDER)
    ensures U16At(img, 4) == x
    ensures U16At(img, 6) == y
    ensures U16At(img, 8) == w
    ensures U16At(img, 10) == h
    ensures U16At(img, 12) == options
    ensures U16At(img, 14) == value
    ensures U16At(img, 16) == range
    ensures U16At(img, 18) == 0
  {
    Put16(Put16(Put16(Put16(Put16(Put16(Put16(Put16(Header(CMD_SLIDER), x), y), w), h), options), value), range), 0)
  }

  /** `snapshot` (the fixed part). */
  function Snapshot(ptr: bv32): (img: seq<byte>)
    ensures |img| == 8
    ensures U32At(img, 0) == MakeCoprocCmdWord(CMD_SNAPSHOT)
    ensures U32At(img, 4) == ptr
  {
    Put32(Header(CMD_SNAPSHOT), ptr)
  }

  /** `snapshot2` (the fixed part). */
  function Snapshot2(fmt: bv8, ptr: bv32, x: bv16, y: bv16, w: bv16, h: bv16): (img: seq<byte>)
    ensures |img| == 20
    ensures U32At(img, 0) == MakeCoprocCmdWord(CMD_SNAPSHOT2)
    ensures U16At(img, 4) == (fmt as bv16)
    ensures U16At(img, 6) == 0
    ensures U32At(img, 8) == ptr
    ensures U16At(img, 12) == x
    ensures U16At(img, 14) == y
    ensures U16At(img, 16) == w
    ensures U16At(img, 18) == h
  {
    Put16(Put16(Put16(Put16(Put32(Put16(Put16(Header(CMD_SNAPSHOT2), fmt as bv16), 0), ptr), x), y), w), h)
  }

  /** `spinner` (the fixed part). */
  function Spinner(x: bv16, y: bv16, style: bv16, scale: bv16): (img: seq<byte>)
    ensures |img| == 12
    ensures U32At(img, 0) == MakeCoprocCmdWord(CMD_SPINNER)
    ensures U16At(img, 4) == x
    ensures U16At(img, 6) == y
    ensures U16At(img, 8) == style
    ensures U16At(img, 10) == scale
  {
    Put16(Put16(Put16(Put16(Header(CMD_SPINNER), x), y), style), scale)
  }

  /** `stop` (the fixed part). */
  function Stop(): (img: seq<byte>)
    ensures |img| == 4
    ensures U32At(img, 0) == MakeCoprocCmdWord(CMD_STOP)
  {
    Header(CMD_STOP)
  }

  /** `swap` (the fixed part). */
  function Swap(): (img: seq<byte>)
    ensures |img| == 4
    ensures U32At(img, 0) == MakeCoprocCmdWord(CMD_SWAP)
  {
    Header(CMD_SWAP)
  }

  /** `text` (the fixed part; write(s);). */
  function Text(x: bv16, y: bv16, font: bv8, options: bv16): (img: seq<byte>)
    ensures |img| == 12
    ensures U32At(img, 0) == MakeCoprocCmdWord(CMD_TEXT)
    ensures U16At(img, 4) == x
    ensures U16At(img, 6) == y
    ensures U16At(img, 8) == (font as bv16)
    ensures U16At(img, 10) == options
  {
    Put16(Put16(Put16(Put16(Header(CMD_TEXT), x), y), font as bv16), options)
  }

  /** `toggle` (the fixed part; write(s);). */
  function Toggle(x: bv16, y: bv16, w: bv16, font: bv8, options: bv16, state: bv16): (img: seq<byte>)
    ensures |img| == 16
    ensures U32At(img, 0) == MakeCoprocCmdWord(CMD_TOGGLE)
    ensures U16At(img, 4) == x
    ensures U16At(img, 6) == y
    ensures U16At(img, 8) == w
    ensures U16At(img, 10) == (font as bv16)
    ensures U16At(img, 12) == options
    ensures U16At(img, 14) == state
  {
    Put16(Put16(Put16(Put16(Put16(Put16(Header(CMD_TOGGLE), x), y), w), font as bv16), options), state)
  }

  /** `track` (the fixed part). */
  function Track(x: bv16, y: bv16, w: bv16, h: bv16, tag: bv8): (img: seq<byte>)
    ensures |img| == 16
    ensures U32At(img, 0) == MakeCoprocCmdWord(CMD_TRACK)
    ensures U16At(img, 4) == x
    ensures U16At(img, 6) == y
    ensures U16At(img, 8) == w
    ensures U16At(img, 10) == h
    ensures U16At(img, 12) == (tag as bv16)
    ensures U16At(img, 14) == 0
  {
    Put16(Put16(Put16(Put16(Put16(Put16(Header(CMD_TRACK), x), y), w), h), tag as bv16), 0)
  }

  /** `translate` (the fixed part). */
  function Translate(tx: bv32, ty: bv32): (img: seq<byte>)
    ensures |img| == 12
    ensures U32At(img, 0) == MakeCoprocCmdWord(CMD_TRANSLATE)
    ensures U32At(img, 4) == tx
    ensures U32At(img, 8) == ty
  {
    Put32(Put32(Header(CMD_TRANSLATE), tx), ty)
  }

  /** `videoframe` (the fixed part). */
  function Videoframe(dst: bv32, ptr: bv32): (img: seq<byte>)
    ensures |img| == 12
    ensures U32At(img, 0) == MakeCoprocCmdWord(CMD_VIDEOFRAME)
    ensures U32At(img, 4) == dst
    ensures U32At(img, 8) == ptr
  {
    Put32(Put32(Header(CMD_VIDEOFRAME), dst), ptr)
  }

  /** `videostart` (the fixed part). */
  function Videostart(): (img: seq<byte>)
    ensures |img| == 4
    ensures U32At(img, 0) == MakeCoprocCmdWord(CMD_VIDEOSTART)
  {
    Header(CMD_VIDEOSTART)
  }
}
