// The host-side command buffer of src/include/Graphics/EVE/CommandBuffer.h:
// a fixed 4096-byte array (EVE_CMDFIFO_SIZE) and a cursor `size`. Every
// emitter of command_defs.h builds its image and appends it with `write`;
// strings and data blocks are followed by `align`.
module CommandBuffers {
  import opened Bytes
  import opened Eve
  import DisplayList
  import Coproc
  import EveInline

  /** A colour as the Graphics library hands it over: alpha and the three channels. */
  datatype Color = Color(alpha: byte, red: byte, green: byte, blue: byte)

  const White := Color(0xFF, 0xFF, 0xFF, 0xFF)

  /** A point of the Graphics library: two int16_t coordinates, as bit patterns. */
  datatype Point = Point(x: bv16, y: bv16)

  /** True when `write` of `n` more bytes passes its assertion `size + len < sizeof(buffer)`. */
  predicate Room(size: nat, n: nat)
  {
    size + n < EVE_CMDFIFO_SIZE
  }

  /** An aligned start followed by a header of whole words leaves the end aligned. */
  lemma {:induction false} AlignedAfter(start: nat, header: nat, end: nat)
    requires header % 4 == 0 && end == start + header
    ensures start % 4 == 0 ==> end % 4 == 0
  {
  }

  /** Behind an aligned start and a header of whole words, the padding depends on the data length alone. */
  lemma {:induction false} PadAfterHeader(start: nat, header: nat, n: nat)
    requires header % 4 == 0
    ensures start % 4 == 0 ==> Coproc.PadTo4(start + header + n) == Coproc.PadTo4(n)
  {
    if start % 4 == 0 {
      assert (start + header + n) % 4 == n % 4;
    }
  }

  class CommandBuffer {
    const buffer: array<byte>
    var size: nat

    ghost predicate Valid()
      reads this
    {
      buffer.Length == EVE_CMDFIFO_SIZE && size <= EVE_CMDFIFO_SIZE
    }

    /** The bytes appended since the last `reset`. */
    function Contents(): (s: seq<byte>)
      reads this, buffer
      requires Valid()
      ensures |s| == size
    {
      buffer[..size]
    }

    constructor ()
      ensures Valid() && fresh(buffer)
      ensures Contents() == []
    {
      buffer := new byte[EVE_CMDFIFO_SIZE];
      size := 0;
    }

    method Reset()
      requires Valid()
      modifies this
      ensures Valid()
      ensures Contents() == []
    {
      size := 0;
    }

    /** `write(data, len)`: the caller guarantees `size + len < 4096`. */
    method Write(data: seq<byte>)
      requires Valid() && Room(size, |data|)
      modifies this, buffer
      ensures Valid() && size == old(size) + |data|
      ensures Contents() == old(Contents()) + data
    {
      var i := 0;
      while i < |data|
        invariant 0 <= i <= |data|
        invariant Valid() && size == old(size)
        invariant buffer[..size] == old(buffer[..size])
        invariant buffer[size..size + i] == data[..i]
      {
        buffer[size + i] := data[i];
        i := i + 1;
      }
      assert buffer[..size + |data|] == buffer[..size] + buffer[size..size + |data|];
      size := size + |data|;
    }

    /** `align()`: zero bytes up to the next multiple of 4; nothing when already aligned. */
    method Align()
      requires Valid()
      modifies this, buffer
      ensures Valid() && size % 4 == 0
      ensures Contents() == old(Contents()) + Zeros(Coproc.PadTo4(old(size)))
    {
      var off := size % 4;
      if off == 0 {
        return;
      }
      ghost var start := size;
      while off < 4
        invariant 0 < off <= 4 && size == start + off - start % 4
        invariant Valid()
        invariant buffer[..start] == old(buffer[..start])
        invariant buffer[start..size] == Zeros(size - start)
        decreases 4 - off
      {
        buffer[size] := 0;
        size := size + 1;
        off := off + 1;
      }
      assert buffer[..size] == buffer[..start] + buffer[start..size];
    }

    /** `write(const String&)`: the characters and the NUL, then `align()`. */
    method WriteString(s: seq<byte>)
      requires Valid() && Room(size, |s| + 1)
      modifies this, buffer
      ensures Valid() && size % 4 == 0
      ensures Contents() == old(Contents()) + s + [0] + Zeros(Coproc.PadTo4(old(size) + |s| + 1))
      ensures old(size) % 4 == 0 ==> Contents() == old(Contents()) + Coproc.StringImage(s)
    {
      ghost var start := Contents();
      Write(s + [0]);
      Align();
      ghost var pad := Zeros(Coproc.PadTo4(old(size) + |s| + 1));
      assert Contents() == start + (s + [0]) + pad;
      if old(size) % 4 == 0 {
        PadAfterHeader(old(size), 0, |s| + 1);
        assert s + [0] + pad == Coproc.StringImage(s);
      }
    }

    function Length(): (n: nat)
      reads this, buffer
      requires Valid()
      ensures n == |Contents()| && n <= EVE_CMDFIFO_SIZE
    {
      size
    }

    /** Appends one display-list word, as every display-list emitter of command_defs.h does. */
    method WriteWord(w: bv32)
      requires Valid() && Room(size, 4)
      modifies this, buffer
      ensures Valid()
      ensures Contents() == old(Contents()) + Le32(w)
    {
      Write(Le32(w));
    }

    method ColorA(alpha: byte)
      requires Valid() && Room(size, 4)
      modifies this, buffer
      ensures Valid()
      ensures Contents() == old(Contents()) + Le32(DisplayList.ColorA(alpha))
    {
      WriteWord(DisplayList.ColorA(alpha));
    }

    method ColorRgb(red: byte, green: byte, blue: byte)
      requires Valid() && Room(size, 4)
      modifies this, buffer
      ensures Valid()
      ensures Contents() == old(Contents()) + Le32(DisplayList.ColorRgb(red, green, blue))
    {
      WriteWord(DisplayList.ColorRgb(red, green, blue));
    }

    /** `color(c)`: `color_rgb` of the three channels; alpha is not sent. */
    method SetColor(c: Color)
      requires Valid() && Room(size, 4)
      modifies this, buffer
      ensures Valid()
      ensures Contents() == old(Contents()) + Le32(EveInline.COLOR_RGB(c.red, c.green, c.blue))
    {
      ColorRgb(c.red, c.green, c.blue);
    }

    /** `clear_color(c)`: `clear_color_rgb` of the three channels. */
    method ClearColor(c: Color)
      requires Valid() && Room(size, 4)
      modifies this, buffer
      ensures Valid()
      ensures Contents() == old(Contents()) + Le32(EveInline.CLEAR_COLOR_RGB(c.red, c.green, c.blue))
    {
      WriteWord(DisplayList.ClearColorRgb(c.red, c.green, c.blue));
    }

    method Begin(prim: bv32)
      requires Valid() && Room(size, 4)
      modifies this, buffer
      ensures Valid()
      ensures Contents() == old(Contents()) + Le32(DisplayList.Begin(prim))
    {
      WriteWord(DisplayList.Begin(prim));
    }

    method End()
      requires Valid() && Room(size, 4)
      modifies this, buffer
      ensures Valid()
      ensures Contents() == old(Contents()) + Le32(DisplayList.End())
    {
      WriteWord(DisplayList.End());
    }

    method PointSize(sz: bv32)
      requires Valid() && Room(size, 4)
      modifies this, buffer
      ensures Valid()
      ensures Contents() == old(Contents()) + Le32(DisplayList.PointSize(sz))
    {
      WriteWord(DisplayList.PointSize(sz));
    }

    method Vertex2f(x: bv32, y: bv32)
      requires Valid() && Room(size, 4)
      modifies this, buffer
      ensures Valid()
      ensures Contents() == old(Contents()) + Le32(DisplayList.Vertex2f(x, y))
    {
      WriteWord(DisplayList.Vertex2f(x, y));
    }

    /** `vertex2f(Point)`: the int16_t coordinates widen to uint32_t by sign extension. */
    method Vertex2fPoint(pt: Point)
      requires Valid() && Room(size, 4)
      modifies this, buffer
      ensures Valid()
      ensures Contents() == old(Contents()) + Le32(EveInline.VERTEX2F(pt.x, pt.y))
    {
      Vertex2f(EveInline.SignExtend(pt.x), EveInline.SignExtend(pt.y));
    }

    method VertexFormat(frac: bv32)
      requires Valid() && Room(size, 4)
      modifies this, buffer
      ensures Valid()
      ensures Contents() == old(Contents()) + Le32(DisplayList.VertexFormat(frac))
    {
      WriteWord(DisplayList.VertexFormat(frac));
    }

    method Display()
      requires Valid() && Room(size, 4)
      modifies this, buffer
      ensures Valid()
      ensures Contents() == old(Contents()) + Le32(DisplayList.Display())
    {
      WriteWord(DisplayList.Display());
    }

    method Dlstart()
      requires Valid() && Room(size, 4)
      modifies this, buffer
      ensures Valid()
      ensures Contents() == old(Contents()) + Coproc.Dlstart()
    {
      Write(Coproc.Dlstart());
    }

    method Swap()
      requires Valid() && Room(size, 4)
      modifies this, buffer
      ensures Valid()
      ensures Contents() == old(Contents()) + Coproc.Swap()
    {
      Write(Coproc.Swap());
    }

    method Text(x: bv16, y: bv16, font: bv8, options: bv16, s: seq<byte>)
      requires Valid() && Room(size, 12) && Room(size + 12, |s| + 1)
      modifies this, buffer
      ensures Valid()
      ensures size % 4 == 0
      ensures Contents() == old(Contents()) + Coproc.Text(x, y, font, options) + s + [0] + Zeros(Coproc.PadTo4(old(size) + 12 + |s| + 1))
      ensures old(size) % 4 == 0 ==>
        Contents() == old(Contents()) + Coproc.Text(x, y, font, options) + Coproc.StringImage(s)
    {
      ghost var start := size;
      Write(Coproc.Text(x, y, font, options));
      AlignedAfter(start, 12, size);
      WriteString(s);
    }

    method Button(x: bv16, y: bv16, w: bv16, h: bv16, font: bv8, options: bv16, s: seq<byte>)
      requires Valid() && Room(size, 16) && Room(size + 16, |s| + 1)
      modifies this, buffer
      ensures Valid()
      ensures size % 4 == 0
      ensures Contents() == old(Contents()) + Coproc.Button(x, y, w, h, font, options) + s + [0] + Zeros(Coproc.PadTo4(old(size) + 16 + |s| + 1))
      ensures old(size) % 4 == 0 ==>
        Contents() == old(Contents()) + Coproc.Button(x, y, w, h, font, options) + Coproc.StringImage(s)
    {
      ghost var start := size;
      Write(Coproc.Button(x, y, w, h, font, options));
      AlignedAfter(start, 16, size);
      WriteString(s);
    }

    method Keys(x: bv16, y: bv16, w: bv16, h: bv16, font: bv8, options: bv16, s: seq<byte>)
      requires Valid() && Room(size, 16) && Room(size + 16, |s| + 1)
      modifies this, buffer
      ensures Valid()
      ensures size % 4 == 0
      ensures Contents() == old(Contents()) + Coproc.Keys(x, y, w, h, font, options) + s + [0] + Zeros(Coproc.PadTo4(old(size) + 16 + |s| + 1))
      ensures old(size) % 4 == 0 ==>
        Contents() == old(Contents()) + Coproc.Keys(x, y, w, h, font, options) + Coproc.StringImage(s)
    {
      ghost var start := size;
      Write(Coproc.Keys(x, y, w, h, font, options));
      AlignedAfter(start, 16, size);
      WriteString(s);
    }

    method Toggle(x: bv16, y: bv16, w: bv16, font: bv8, options: bv16, state: bv16, s: seq<byte>)
      requires Valid() && Room(size, 16) && Room(size + 16, |s| + 1)
      modifies this, buffer
      ensures Valid()
      ensures size % 4 == 0
      ensures Contents() == old(Contents()) + Coproc.Toggle(x, y, w, font, options, state) + s + [0] + Zeros(Coproc.PadTo4(old(size) + 16 + |s| + 1))
      ensures old(size) % 4 == 0 ==>
        Contents() == old(Contents()) + Coproc.Toggle(x, y, w, font, options, state) + Coproc.StringImage(s)
    {
      ghost var start := size;
      Write(Coproc.Toggle(x, y, w, font, options, state));
      AlignedAfter(start, 16, size);
      WriteString(s);
    }

    /** `inflate(ptr, data, len)`: the image, the raw data, then `align()`. */
    method Inflate(ptr: bv32, data: seq<byte>)
      requires Valid() && Room(size, 8) && Room(size + 8, |data|)
      modifies this, buffer
      ensures Valid()
      ensures size % 4 == 0
      ensures Contents() == old(Contents()) + Coproc.Inflate(ptr) + data + Zeros(Coproc.PadTo4(old(size) + 8 + |data|))
      ensures old(size) % 4 == 0 ==>
        Contents() == old(Contents()) + Coproc.Inflate(ptr) + Coproc.DataImage(data)
    {
      ghost var start := size;
      Write(Coproc.Inflate(ptr));
      Write(data);
      PadAfterHeader(start, 8, |data|);
      Align();
    }

    /** `memwrite(ptr, num, data)`: the image, `num` bytes of data, then `align()`. */
    method Memwrite(ptr: bv32, data: seq<byte>)
      requires Valid() && |data| < 0x1_0000_0000 && Room(size, 12) && Room(size + 12, |data|)
      modifies this, buffer
      ensures Valid()
      ensures size % 4 == 0
      ensures Contents() == old(Contents()) + Coproc.Memwrite(ptr, |data| as bv32) + data + Zeros(Coproc.PadTo4(old(size) + 12 + |data|))
      ensures old(size) % 4 == 0 ==>
        Contents() == old(Contents()) + Coproc.Memwrite(ptr, |data| as bv32) + Coproc.DataImage(data)
    {
      ghost var start := size;
      Write(Coproc.Memwrite(ptr, |data| as bv32));
      Write(data);
      PadAfterHeader(start, 12, |data|);
      Align();
    }
  }
}
