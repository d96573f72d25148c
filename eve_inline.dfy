// The inline display-list word builders of the EVE header
// (src/include/Graphics/EVE/EVE.h, the INLINE_DL_COMMAND functions).  Each
// returns one 32-bit display-list word; its contract decodes the fields and
// relates the word to the struct the command encoder fills for the same
// command (module DisplayList).
module EveInline {
  import opened Bytes
  import opened Eve
  import DisplayList

  /** The conversion of an int16_t to uint32_t. */
  function SignExtend(h: bv16): (r: bv32)
    ensures r & 0xFFFF == h as bv32
    ensures r >> 16 == if h & 0x8000 == 0 then 0 else 0xFFFF
  {
    if h & 0x8000 == 0 then HalfLow(h); h as bv32 else HalfHigh(h); (h as bv32) | 0xFFFF0000
  }

  /** A zero-extended half-word is its own low half, with nothing above it. */
  lemma HalfLow(h: bv16)
    ensures (h as bv32) & 0xFFFF == h as bv32 && (h as bv32) >> 16 == 0
  {
  }

  /** With the upper half set, the low half is still the half-word. */
  lemma HalfHigh(h: bv16)
    ensures ((h as bv32) | 0xFFFF0000) & 0xFFFF == h as bv32 && ((h as bv32) | 0xFFFF0000) >> 16 == 0xFFFF
  {
  }

  function BEGIN(prim: bv32): (w: bv32)
    ensures prim < 0x1000000 ==> Opcode(w) == DL_BEGIN && Param(w) == prim
    ensures prim < 0x1000000 ==> (prim < 16 <==> w == DisplayList.Begin(prim))
  {
    MakeCmdWord(DL_BEGIN, prim)
  }

  function END(): (w: bv32)
    ensures w == DisplayList.End()
  {
    MakeCmdWord(DL_END, 0)
  }

  function DISPLAY(): (w: bv32)
    ensures w == DisplayList.Display()
  {
    MakeCmdWord(DL_DISPLAY, 0)
  }

  function ALPHA_FUNC(func: bv8, ref: bv8): (w: bv32)
    ensures Bits(w, 11, 13) == 0
    ensures (func & 8 == 0) <==> w == DisplayList.AlphaFunc(func, ref)
  {
    var funcv := ((func as bv32) & 7) << 8;
    MakeCmdWord(DL_ALPHA_FUNC, funcv | ref as bv32)
  }

  function BITMAP_HANDLE(handle: bv8): (w: bv32)
    ensures w == DisplayList.BitmapHandle(handle)
  {
    MakeCmdWord(DL_BITMAP_HANDLE, (handle as bv32) & 0x1F)
  }

  function BITMAP_LAYOUT(format: bv32, linestride: bv16, height: bv16): (w: bv32)
    ensures w == DisplayList.BitmapLayout(format, linestride as bv32, height as bv32)
  {
    var formatv := (format & 0x1F) << 19;
    var linestridev := ((linestride & 0x3FF) as bv32) << 9;
    var heightv := (height & 0x1FF) as bv32;
    MakeCmdWord(DL_BITMAP_LAYOUT, formatv | linestridev | heightv)
  }

  function BITMAP_SIZE(filter: bv32, wrapx: bv32, wrapy: bv32, width: bv16, height: bv16): (w: bv32)
    ensures w == DisplayList.BitmapSize(filter, wrapx, wrapy, width as bv32, height as bv32)
  {
    var filterv := (filter & 0x01) << 20;
    var wrapxv := (wrapx & 0x01) << 19;
    var wrapyv := (wrapy & 0x01) << 18;
    var widthv := ((width & 0x01FF) as bv32) << 9;
    var heightv := (height & 0x01FF) as bv32;
    MakeCmdWord(DL_BITMAP_SIZE, filterv | wrapxv | wrapyv | widthv | heightv)
  }

  /** The high bits of a line stride and a height that BITMAP_LAYOUT cannot hold. */
  function BITMAP_LAYOUT_H(linestride: bv16, height: bv16): (w: bv32)
    ensures w == DisplayList.BitmapLayoutH((linestride >> 10) as bv32, (height >> 9) as bv32)
  {
    var linestridev := (((linestride >> 10) & 0x03) as bv32) << 2;
    var heightv := ((height >> 9) & 0x03) as bv32;
    MakeCmdWord(DL_BITMAP_LAYOUT_H, linestridev | heightv)
  }

  /** The high bits of a width and a height that BITMAP_SIZE cannot hold. */
  function BITMAP_SIZE_H(width: bv16, height: bv16): (w: bv32)
    ensures w == DisplayList.BitmapSizeH((width >> 9) as bv32, (height >> 9) as bv32)
  {
    var widthv := (((width >> 9) & 0x03) as bv32) << 2;
    var heightv := ((height >> 9) & 0x03) as bv32;
    MakeCmdWord(DL_BITMAP_SIZE_H, widthv | heightv)
  }

  function BITMAP_SOURCE(addr: bv32): (w: bv32)
    ensures w == DisplayList.BitmapSource(addr)
  {
    MakeCmdWord(DL_BITMAP_SOURCE, addr & 0x3FFFFF)
  }

  function BITMAP_TRANSFORM_A(val: bv32): (w: bv32)
    ensures w == DisplayList.BitmapTransformA(val)
  {
    MakeCmdWord(DL_BITMAP_TRANSFORM_A, val & 0x1FFFF)
  }

  function BITMAP_TRANSFORM_B(val: bv32): (w: bv32)
    ensures w == DisplayList.BitmapTransformB(val)
  {
    MakeCmdWord(DL_BITMAP_TRANSFORM_B, val & 0x1FFFF)
  }

  function BITMAP_TRANSFORM_D(val: bv32): (w: bv32)
    ensures w == DisplayList.BitmapTransformD(val)
  {
    MakeCmdWord(DL_BITMAP_TRANSFORM_D, val & 0x1FFFF)
  }

  function BITMAP_TRANSFORM_E(val: bv32): (w: bv32)
    ensures w == DisplayList.BitmapTransformE(val)
  {
    MakeCmdWord(DL_BITMAP_TRANSFORM_E, val & 0x1FFFF)
  }

  /** As written: the C coefficient (a signed 15.8 value) is masked to 17 bits. */
  function BITMAP_TRANSFORM_C(val: bv32): (w: bv32)
    ensures Opcode(w) == DL_BITMAP_TRANSFORM_C && Param(w) == val & 0x1FFFF
    ensures (val & 0xFE0000 == 0) <==> w == DisplayList.BitmapTransformC(val)
  {
    MakeCmdWord(DL_BITMAP_TRANSFORM_C, val & 0x1FFFF)
  }

  /** As written: the F coefficient (a signed 15.8 value) is masked to 17 bits. */
  function BITMAP_TRANSFORM_F(val: bv32): (w: bv32)
    ensures Opcode(w) == DL_BITMAP_TRANSFORM_F && Param(w) == val & 0x1FFFF
    ensures (val & 0xFE0000 == 0) <==> w == DisplayList.BitmapTransformF(val)
  {
    MakeCmdWord(DL_BITMAP_TRANSFORM_F, val & 0x1FFFF)
  }

  /** BITMAP_TRANSFORM_C keeping all 24 bits of the 15.8 coefficient. */
  function BITMAP_TRANSFORM_C24(val: bv32): (w: bv32)
    ensures w == DisplayList.BitmapTransformC(val)
  {
    MakeCmdWord(DL_BITMAP_TRANSFORM_C, val & 0xFFFFFF)
  }

  /** BITMAP_TRANSFORM_F keeping all 24 bits of the 15.8 coefficient. */
  function BITMAP_TRANSFORM_F24(val: bv32): (w: bv32)
    ensures w == DisplayList.BitmapTransformF(val)
  {
    MakeCmdWord(DL_BITMAP_TRANSFORM_F, val & 0xFFFFFF)
  }

  /**
   * The 17-bit mask loses the upper bits of the C and F coefficients: -1.0 in
   * signed 15.8 (0xffffff00) reaches the device as 0x1ff00, which is +511.0,
   * while the command_defs.h emitter sends 0xffff00.
   */
  lemma TransformMaskCounterexample()
    ensures Param(BITMAP_TRANSFORM_C(0xFFFFFF00)) == 0x1FF00
    ensures Param(DisplayList.BitmapTransformC(0xFFFFFF00)) == 0xFFFF00
    ensures BITMAP_TRANSFORM_C(0xFFFFFF00) != DisplayList.BitmapTransformC(0xFFFFFF00)
    ensures BITMAP_TRANSFORM_F(0xFFFFFF00) != DisplayList.BitmapTransformF(0xFFFFFF00)
  {
  }

  /** The corrected builders agree with the 17-bit ones exactly on coefficients that fit 17 bits. */
  lemma {:induction false} TransformCorrectedAgrees(val: bv32)
    ensures BITMAP_TRANSFORM_C(val) == BITMAP_TRANSFORM_C24(val) <==> val & 0xFE0000 == 0
    ensures BITMAP_TRANSFORM_F(val) == BITMAP_TRANSFORM_F24(val) <==> val & 0xFE0000 == 0
  {
  }

  function BLEND_FUNC(src: bv32, dst: bv32): (w: bv32)
    ensures w == DisplayList.BlendFunc(src, dst)
  {
    var srcv := (src & 0x07) << 3;
    var dstv := dst & 0x07;
    MakeCmdWord(DL_BLEND_FUNC, srcv | dstv)
  }

  function CALL(dest: bv16): (w: bv32)
    ensures w == DisplayList.Call(dest)
  {
    MakeCmdWord(DL_CALL, dest as bv32)
  }

  function JUMP(dest: bv16): (w: bv32)
    ensures w == DisplayList.Jump(dest)
  {
    MakeCmdWord(DL_JUMP, dest as bv32)
  }

  function CELL(cell: bv8): (w: bv32)
    ensures w == DisplayList.Cell(cell)
  {
    MakeCmdWord(DL_CELL, (cell as bv32) & 0x7F)
  }

  function CLEAR(color: bool, stencil: bool, tag: bool): (w: bv32)
    ensures w == DisplayList.Clear(color, stencil, tag)
  {
    var colorv := (Bit(color) & 0x01) << 2;
    var stencilv := (Bit(stencil) & 0x01) << 1;
    var tagv := Bit(tag) & 0x01;
    MakeCmdWord(DL_CLEAR, colorv | stencilv | tagv)
  }

  function CLEAR_COLOR_A(alpha: bv8): (w: bv32)
    ensures w == DisplayList.ClearColorA(alpha)
  {
    MakeCmdWord(DL_CLEAR_COLOR_A, alpha as bv32)
  }

  function CLEAR_COLOR_RGB(red: bv8, green: bv8, blue: bv8): (w: bv32)
    ensures w == DisplayList.ClearColorRgb(red, green, blue)
  {
    var redv := (red as bv32) << 16;
    var greenv := (green as bv32) << 8;
    var bluev := blue as bv32;
    MakeCmdWord(DL_CLEAR_COLOR_RGB, redv | greenv | bluev)
  }

  function CLEAR_STENCIL(val: bv8): (w: bv32)
    ensures w == DisplayList.ClearStencil(val)
  {
    MakeCmdWord(DL_CLEAR_STENCIL, val as bv32)
  }

  function CLEAR_TAG(val: bv8): (w: bv32)
    ensures w == DisplayList.ClearTag(val)
  {
    MakeCmdWord(DL_CLEAR_TAG, val as bv32)
  }

  function COLOR_A(alpha: bv8): (w: bv32)
    ensures w == DisplayList.ColorA(alpha)
  {
    MakeCmdWord(DL_COLOR_A, alpha as bv32)
  }

  function COLOR_MASK(red: bool, green: bool, blue: bool, alpha: bool): (w: bv32)
    ensures w == DisplayList.ColorMask(red, green, blue, alpha)
  {
    var redv := (Bit(red) & 0x01) << 3;
    var greenv := (Bit(green) & 0x01) << 2;
    var bluev := (Bit(blue) & 0x01) << 1;
    var alphav := Bit(alpha) & 0x01;
    MakeCmdWord(DL_COLOR_MASK, redv | greenv | bluev | alphav)
  }

  function COLOR_RGB(red: bv8, green: bv8, blue: bv8): (w: bv32)
    ensures w == DisplayList.ColorRgb(red, green, blue)
  {
    var redv := (red as bv32) << 16;
    var greenv := (green as bv32) << 8;
    var bluev := blue as bv32;
    MakeCmdWord(DL_COLOR_RGB, redv | greenv | bluev)
  }

  function LINE_WIDTH(width: bv16): (w: bv32)
    ensures w == DisplayList.LineWidth(width as bv32)
  {
    MakeCmdWord(DL_LINE_WIDTH, ((width & 0x0FFF) as bv32))
  }

  function MACRO(m: bv8): (w: bv32)
    ensures w == DisplayList.Macro(m as bv32)
  {
    MakeCmdWord(DL_MACRO, (m as bv32) & 0x01)
  }

  function PALETTE_SOURCE(addr: bv32): (w: bv32)
    ensures w == DisplayList.PaletteSource(addr)
  {
    MakeCmdWord(DL_PALETTE_SOURCE, addr & 0x3FFFFF)
  }

  function POINT_SIZE(size: bv16): (w: bv32)
    ensures w == DisplayList.PointSize(size as bv32)
  {
    MakeCmdWord(DL_POINT_SIZE, (size & 0x1FFF) as bv32)
  }

  function SCISSOR_SIZE(width: bv16, height: bv16): (w: bv32)
    ensures w == DisplayList.ScissorSize(width as bv32, height as bv32)
  {
    var widthv := ((width & 0x0FFF) as bv32) << 12;
    var heightv := (height & 0x0FFF) as bv32;
    MakeCmdWord(DL_SCISSOR_SIZE, widthv | heightv)
  }

  function SCISSOR_XY(x: bv16, y: bv16): (w: bv32)
    ensures w == DisplayList.ScissorXy(x as bv32, y as bv32)
  {
    var xv := ((x & 0x7FF) as bv32) << 11;
    var yv := (y & 0x7FF) as bv32;
    MakeCmdWord(DL_SCISSOR_XY, xv | yv)
  }

  function STENCIL_FUNC(func: bv8, ref: bv8, mask: bv8): (w: bv32)
    ensures Bits(w, 19, 5) == 0
    ensures (func & 8 == 0) <==> w == DisplayList.StencilFunc(func, ref, mask)
  {
    var funcv := ((func as bv32) & 0x07) << 16;
    var refv := (ref as bv32) << 8;
    var maskv := mask as bv32;
    MakeCmdWord(DL_STENCIL_FUNC, funcv | refv | maskv)
  }

  function STENCIL_MASK(mask: bv8): (w: bv32)
    ensures w == DisplayList.StencilMask(mask)
  {
    MakeCmdWord(DL_STENCIL_MASK, mask as bv32)
  }

  function STENCIL_OP(sfail: bv8, spass: bv8): (w: bv32)
    ensures w == DisplayList.StencilOp(sfail, spass)
  {
    var sfailv := ((sfail as bv32) & 0x07) << 3;
    var spassv := (spass as bv32) & 0x07;
    MakeCmdWord(DL_STENCIL_OP, sfailv | spassv)
  }

  function TAG(tagval: bv8): (w: bv32)
    ensures w == DisplayList.Tag(tagval)
  {
    MakeCmdWord(DL_TAG, tagval as bv32)
  }

  function TAG_MASK(mask: bv8): (w: bv32)
    ensures Opcode(w) == DL_TAG_MASK && Param(w) == (mask as bv32) & 1
    ensures mask < 2 ==> w == DisplayList.TagMask(mask == 1)
  {
    MakeCmdWord(DL_TAG_MASK, (mask as bv32) & 0x01)
  }

  /** Coordinates are int16_t; only their low 15 bits are kept. */
  function VERTEX2F(x: bv16, y: bv16): (w: bv32)
    ensures w == DisplayList.Vertex2f(SignExtend(x), SignExtend(y))
  {
    var xv := ((x & 0x7FFF) as bv32) << 15;
    var yv := (y & 0x7FFF) as bv32;
    MakeCmdWord(DL_VERTEX2F, xv | yv)
  }

  function VERTEX2II(x: bv16, y: bv16, handle: bv8, cell: bv8): (w: bv32)
    ensures w == DisplayList.Vertex2ii(x as bv32, y as bv32, handle, cell)
  {
    var xv := ((x & 0x1FF) as bv32) << 21;
    var yv := ((y & 0x1FF) as bv32) << 12;
    var handlev := ((handle as bv32) & 0x1F) << 7;
    var cellv := (cell as bv32) & 0x7F;
    MakeCmdWord(DL_VERTEX2II, xv | yv | handlev | cellv)
  }

  function VERTEX_FORMAT(frac: bv8): (w: bv32)
    ensures w == DisplayList.VertexFormat(frac as bv32)
  {
    MakeCmdWord(DL_VERTEX_FORMAT, (frac as bv32) & 0x07)
  }

  function VERTEX_TRANSLATE_X(x: bv32): (w: bv32)
    ensures w == DisplayList.VertexTranslateX(x)
  {
    MakeCmdWord(DL_VERTEX_TRANSLATE_X, x & 0x1FFFF)
  }

  function VERTEX_TRANSLATE_Y(y: bv32): (w: bv32)
    ensures w == DisplayList.VertexTranslateY(y)
  {
    MakeCmdWord(DL_VERTEX_TRANSLATE_Y, y & 0x1FFFF)
  }
}
