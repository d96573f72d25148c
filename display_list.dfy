// The display-list emitters of the command encoder
// (src/include/Graphics/EVE/command_defs.h).  Each one fills a 32-bit
// bit-field struct whose members the compiler packs from bit 0 upwards, a
// value too wide for its member keeping only its low bits, and the opcode in
// the top byte (the top two bits for the two vertex commands).  A function
// here is the word that struct holds; `Field` places one member.
module DisplayList {
  import opened Bytes
  import opened Eve

  function Mask(width: bv32): bv32
    requires width <= 32
  {
    ((1 as bv32) << width) - 1
  }

  /** A bit-field member of `width` bits at bit `lo` holding `v`. */
  function Field(v: bv32, width: bv32, lo: bv32): bv32
    requires lo <= 32 && width <= 32 - lo
  {
    (v & Mask(width)) << lo
  }

  function AlphaFunc(func: bv8, ref: bv8): (w: bv32)
    ensures Opcode(w) == DL_ALPHA_FUNC
    ensures Bits(w, 0, 8) == ref as bv32
    ensures Bits(w, 8, 4) == (func as bv32) & 0xF
    ensures Bits(w, 12, 12) == 0
  {
    Field(ref as bv32, 8, 0) | Field(func as bv32, 4, 8) | Field(0, 12, 12) | Field(0x09, 8, 24)
  }

  function Begin(prim: bv32): (w: bv32)
    ensures Opcode(w) == DL_BEGIN
    ensures Bits(w, 0, 4) == prim & 0xF
    ensures Bits(w, 4, 20) == 0
  {
    Field(prim & 0xFFFF, 4, 0) | Field(0, 20, 4) | Field(0x1F, 8, 24)
  }

  function BitmapHandle(handle: bv8): (w: bv32)
    ensures Opcode(w) == DL_BITMAP_HANDLE
    ensures Bits(w, 0, 5) == (handle as bv32) & 0x1F
    ensures Bits(w, 5, 19) == 0
  {
    Field(handle as bv32, 5, 0) | Field(0, 19, 5) | Field(0x05, 8, 24)
  }

  function BitmapLayout(format: bv32, linestride: bv32, height: bv32): (w: bv32)
    ensures Opcode(w) == DL_BITMAP_LAYOUT
    ensures Bits(w, 0, 9) == height & 0x1FF
    ensures Bits(w, 9, 10) == linestride & 0x3FF
    ensures Bits(w, 19, 5) == format & 0x1F
  {
    Field(height, 9, 0) | Field(linestride, 10, 9) | Field(format & 0xFFFF, 5, 19) | Field(0x07, 8, 24)
  }

  function BitmapLayoutH(linestride: bv32, height: bv32): (w: bv32)
    ensures Opcode(w) == DL_BITMAP_LAYOUT_H
    ensures Bits(w, 0, 2) == height & 0x3
    ensures Bits(w, 2, 2) == linestride & 0x3
    ensures Bits(w, 4, 20) == 0
  {
    Field(height, 2, 0) | Field(linestride, 2, 2) | Field(0, 20, 4) | Field(0x28, 8, 24)
  }

  function BitmapSize(filter: bv32, wrapx: bv32, wrapy: bv32, width: bv32, height: bv32): (w: bv32)
    ensures Opcode(w) == DL_BITMAP_SIZE
    ensures Bits(w, 0, 9) == height & 0x1FF
    ensures Bits(w, 9, 9) == width & 0x1FF
    ensures Bits(w, 18, 1) == wrapy & 0x1
    ensures Bits(w, 19, 1) == wrapx & 0x1
    ensures Bits(w, 20, 1) == filter & 0x1
    ensures Bits(w, 21, 3) == 0
  {
    Field(height, 9, 0)
    | Field(width, 9, 9)
    | Field(wrapy & 0xFFFF, 1, 18)
    | Field(wrapx & 0xFFFF, 1, 19)
    | Field(filter & 0xFFFF, 1, 20)
    | Field(0, 3, 21)
    | Field(0x08, 8, 24)
  }

  function BitmapSizeH(width: bv32, height: bv32): (w: bv32)
    ensures Opcode(w) == DL_BITMAP_SIZE_H
    ensures Bits(w, 0, 2) == height & 0x3
    ensures Bits(w, 2, 2) == width & 0x3
    ensures Bits(w, 4, 20) == 0
  {
    Field(height, 2, 0) | Field(width, 2, 2) | Field(0, 20, 4) | Field(0x29, 8, 24)
  }

  function BitmapSource(addr: bv32): (w: bv32)
    ensures Opcode(w) == DL_BITMAP_SOURCE
    ensures Bits(w, 0, 22) == addr & 0x3FFFFF
    ensures Bits(w, 22, 2) == 0
  {
    Field(addr, 22, 0) | Field(0, 2, 22) | Field(0x01, 8, 24)
  }

  function BitmapTransformA(a: bv32): (w: bv32)
    ensures Opcode(w) == DL_BITMAP_TRANSFORM_A
    ensures Bits(w, 0, 17) == a & 0x1FFFF
    ensures Bits(w, 17, 7) == 0
  {
    Field(a, 17, 0) | Field(0, 7, 17) | Field(0x15, 8, 24)
  }

  function BitmapTransformB(b: bv32): (w: bv32)
    ensures Opcode(w) == DL_BITMAP_TRANSFORM_B
    ensures Bits(w, 0, 17) == b & 0x1FFFF
    ensures Bits(w, 17, 7) == 0
  {
    Field(b, 17, 0) | Field(0, 7, 17) | Field(0x16, 8, 24)
  }

  function BitmapTransformC(c: bv32): (w: bv32)
    ensures Opcode(w) == DL_BITMAP_TRANSFORM_C
    ensures Bits(w, 0, 24) == c & 0xFFFFFF
  {
    Field(c, 24, 0) | Field(0x17, 8, 24)
  }

  function BitmapTransformD(d: bv32): (w: bv32)
    ensures Opcode(w) == DL_BITMAP_TRANSFORM_D
    ensures Bits(w, 0, 17) == d & 0x1FFFF
    ensures Bits(w, 17, 7) == 0
  {
    Field(d, 17, 0) | Field(0, 7, 17) | Field(0x18, 8, 24)
  }

  function BitmapTransformE(e: bv32): (w: bv32)
    ensures Opcode(w) == DL_BITMAP_TRANSFORM_E
    ensures Bits(w, 0, 17) == e & 0x1FFFF
    ensures Bits(w, 17, 7) == 0
  {
    Field(e, 17, 0) | Field(0, 7, 17) | Field(0x19, 8, 24)
  }

  function BitmapTransformF(f: bv32): (w: bv32)
    ensures Opcode(w) == DL_BITMAP_TRANSFORM_F
    ensures Bits(w, 0, 24) == f & 0xFFFFFF
  {
    Field(f, 24, 0) | Field(0x1A, 8, 24)
  }

  function BlendFunc(src: bv32, dst: bv32): (w: bv32)
    ensures Opcode(w) == DL_BLEND_FUNC
    ensures Bits(w, 0, 3) == dst & 0x7
    ensures Bits(w, 3, 3) == src & 0x7
    ensures Bits(w, 6, 18) == 0
  {
    Field(dst & 0xFFFF, 3, 0) | Field(src & 0xFFFF, 3, 3) | Field(0, 18, 6) | Field(0x0B, 8, 24)
  }

  function Call(dest: bv16): (w: bv32)
    ensures Opcode(w) == DL_CALL
    ensures Bits(w, 0, 16) == dest as bv32
    ensures Bits(w, 16, 8) == 0
  {
    Field(dest as bv32, 16, 0) | Field(0, 8, 16) | Field(0x1D, 8, 24)
  }

  function Cell(cell: bv8): (w: bv32)
    ensures Opcode(w) == DL_CELL
    ensures Bits(w, 0, 7) == (cell as bv32) & 0x7F
    ensures Bits(w, 7, 17) == 0
  {
    Field(cell as bv32, 7, 0) | Field(0, 17, 7) | Field(0x06, 8, 24)
  }

  function Clear(c: bool, s: bool, t: bool): (w: bv32)
    ensures Opcode(w) == DL_CLEAR
    ensures Bits(w, 0, 1) == Bit(t)
    ensures Bits(w, 1, 1) == Bit(s)
    ensures Bits(w, 2, 1) == Bit(c)
    ensures Bits(w, 3, 21) == 0
  {
    Field(Bit(t), 1, 0)
    | Field(Bit(s), 1, 1)
    | Field(Bit(c), 1, 2)
    | Field(0, 21, 3)
    | Field(0x26, 8, 24)
  }

  function ClearColorA(alpha: bv8): (w: bv32)
    ensures Opcode(w) == DL_CLEAR_COLOR_A
    ensures Bits(w, 0, 8) == alpha as bv32
    ensures Bits(w, 8, 16) == 0
  {
    Field(alpha as bv32, 8, 0) | Field(0, 16, 8) | Field(0x0F, 8, 24)
  }

  function ClearColorRgb(red: bv8, green: bv8, blue: bv8): (w: bv32)
    ensures Opcode(w) == DL_CLEAR_COLOR_RGB
    ensures Bits(w, 0, 8) == blue as bv32
    ensures Bits(w, 8, 8) == green as bv32
    ensures Bits(w, 16, 8) == red as bv32
  {
    Field(blue as bv32, 8, 0)
    | Field(green as bv32, 8, 8)
    | Field(red as bv32, 8, 16)
    | Field(0x02, 8, 24)
  }

  function ClearStencil(s: bv8): (w: bv32)
    ensures Opcode(w) == DL_CLEAR_STENCIL
    ensures Bits(w, 0, 8) == s as bv32
    ensures Bits(w, 8, 16) == 0
  {
    Field(s as bv32, 8, 0) | Field(0, 16, 8) | Field(0x11, 8, 24)
  }

  function ClearTag(tag: bv8): (w: bv32)
    ensures Opcode(w) == DL_CLEAR_TAG
    ensures Bits(w, 0, 8) == tag as bv32
    ensures Bits(w, 8, 16) == 0
  {
    Field(tag as bv32, 8, 0) | Field(0, 16, 8) | Field(0x12, 8, 24)
  }

  function ColorA(alpha: bv8): (w: bv32)
    ensures Opcode(w) == DL_COLOR_A
    ensures Bits(w, 0, 8) == alpha as bv32
    ensures Bits(w, 8, 16) == 0
  {
    Field(alpha as bv32, 8, 0) | Field(0, 16, 8) | Field(0x10, 8, 24)
  }

  function ColorMask(r: bool, g: bool, b: bool, a: bool): (w: bv32)
    ensures Opcode(w) == DL_COLOR_MASK
    ensures Bits(w, 0, 1) == Bit(a)
    ensures Bits(w, 1, 1) == Bit(b)
    ensures Bits(w, 2, 1) == Bit(g)
    ensures Bits(w, 3, 1) == Bit(r)
    ensures Bits(w, 4, 20) == 0
  {
    Field(Bit(a), 1, 0)
    | Field(Bit(b), 1, 1)
    | Field(Bit(g), 1, 2)
    | Field(Bit(r), 1, 3)
    | Field(0, 20, 4)
    | Field(0x20, 8, 24)
  }

  function ColorRgb(red: bv8, green: bv8, blue: bv8): (w: bv32)
    ensures Opcode(w) == DL_COLOR_RGB
    ensures Bits(w, 0, 8) == blue as bv32
    ensures Bits(w, 8, 8) == green as bv32
    ensures Bits(w, 16, 8) == red as bv32
  {
    Field(blue as bv32, 8, 0)
    | Field(green as bv32, 8, 8)
    | Field(red as bv32, 8, 16)
    | Field(0x04, 8, 24)
  }

  function Display(): (w: bv32)
    ensures Opcode(w) == DL_DISPLAY
    ensures Bits(w, 0, 24) == 0
  {
    Field(0, 24, 0) | Field(0x00, 8, 24)
  }

  function End(): (w: bv32)
    ensures Opcode(w) == DL_END
    ensures Bits(w, 0, 24) == 0
  {
    Field(0, 24, 0) | Field(0x21, 8, 24)
  }

  function Jump(dest: bv16): (w: bv32)
    ensures Opcode(w) == DL_JUMP
    ensures Bits(w, 0, 16) == dest as bv32
    ensures Bits(w, 16, 8) == 0
  {
    Field(dest as bv32, 16, 0) | Field(0, 8, 16) | Field(0x1E, 8, 24)
  }

  function LineWidth(width: bv32): (w: bv32)
    ensures Opcode(w) == DL_LINE_WIDTH
    ensures Bits(w, 0, 12) == width & 0xFFF
    ensures Bits(w, 12, 12) == 0
  {
    Field(width, 12, 0) | Field(0, 12, 12) | Field(0x0E, 8, 24)
  }

  function Macro(m: bv32): (w: bv32)
    ensures Opcode(w) == DL_MACRO
    ensures Bits(w, 0, 1) == m & 0x1
    ensures Bits(w, 1, 23) == 0
  {
    Field(m, 1, 0) | Field(0, 23, 1) | Field(0x25, 8, 24)
  }

  function Nop(): (w: bv32)
    ensures Opcode(w) == DL_NOP
    ensures Bits(w, 0, 24) == 0
  {
    Field(0, 24, 0) | Field(0x2D, 8, 24)
  }

  function PaletteSource(addr: bv32): (w: bv32)
    ensures Opcode(w) == DL_PALETTE_SOURCE
    ensures Bits(w, 0, 22) == addr & 0x3FFFFF
    ensures Bits(w, 22, 2) == 0
  {
    Field(addr, 22, 0) | Field(0, 2, 22) | Field(0x2A, 8, 24)
  }

  function PointSize(size: bv32): (w: bv32)
    ensures Opcode(w) == DL_POINT_SIZE
    ensures Bits(w, 0, 13) == size & 0x1FFF
    ensures Bits(w, 13, 11) == 0
  {
    Field(size, 13, 0) | Field(0, 11, 13) | Field(0x0D, 8, 24)
  }

  function RestoreContext(): (w: bv32)
    ensures Opcode(w) == DL_RESTORE_CONTEXT
    ensures Bits(w, 0, 24) == 0
  {
    Field(0, 24, 0) | Field(0x23, 8, 24)
  }

  function Return(): (w: bv32)
    ensures Opcode(w) == DL_RETURN
    ensures Bits(w, 0, 24) == 0
  {
    Field(0, 24, 0) | Field(0x24, 8, 24)
  }

  function SaveContext(): (w: bv32)
    ensures Opcode(w) == DL_SAVE_CONTEXT
    ensures Bits(w, 0, 24) == 0
  {
    Field(0, 24, 0) | Field(0x22, 8, 24)
  }

  function ScissorSize(width: bv32, height: bv32): (w: bv32)
    ensures Opcode(w) == DL_SCISSOR_SIZE
    ensures Bits(w, 0, 12) == height & 0xFFF
    ensures Bits(w, 12, 12) == width & 0xFFF
  {
    Field(height, 12, 0) | Field(width, 12, 12) | Field(0x1C, 8, 24)
  }

  function ScissorXy(x: bv32, y: bv32): (w: bv32)
    ensures Opcode(w) == DL_SCISSOR_XY
    ensures Bits(w, 0, 11) == y & 0x7FF
    ensures Bits(w, 11, 11) == x & 0x7FF
    ensures Bits(w, 22, 2) == 0
  {
    Field(y, 11, 0) | Field(x, 11, 11) | Field(0, 2, 22) | Field(0x1B, 8, 24)
  }

  function StencilFunc(func: bv8, ref: bv8, mask: bv8): (w: bv32)
    ensures Opcode(w) == DL_STENCIL_FUNC
    ensures Bits(w, 0, 8) == mask as bv32
    ensures Bits(w, 8, 8) == ref as bv32
    ensures Bits(w, 16, 4) == (func as bv32) & 0xF
    ensures Bits(w, 20, 4) == 0
  {
    Field(mask as bv32, 8, 0)
    | Field(ref as bv32, 8, 8)
    | Field(func as bv32, 4, 16)
    | Field(0, 4, 20)
    | Field(0x0A, 8, 24)
  }

  function StencilMask(mask: bv8): (w: bv32)
    ensures Opcode(w) == DL_STENCIL_MASK
    ensures Bits(w, 0, 8) == mask as bv32
    ensures Bits(w, 8, 16) == 0
  {
    Field(mask as bv32, 8, 0) | Field(0, 16, 8) | Field(0x13, 8, 24)
  }

  function StencilOp(sfail: bv8, spass: bv8): (w: bv32)
    ensures Opcode(w) == DL_STENCIL_OP
    ensures Bits(w, 0, 3) == (spass as bv32) & 0x7
    ensures Bits(w, 3, 3) == (sfail as bv32) & 0x7
    ensures Bits(w, 6, 18) == 0
  {
    Field(spass as bv32, 3, 0) | Field(sfail as bv32, 3, 3) | Field(0, 18, 6) | Field(0x0C, 8, 24)
  }

  function Tag(tag: bv8): (w: bv32)
    ensures Opcode(w) == DL_TAG
    ensures Bits(w, 0, 8) == tag as bv32
    ensures Bits(w, 8, 16) == 0
  {
    Field(tag as bv32, 8, 0) | Field(0, 16, 8) | Field(0x03, 8, 24)
  }

  function TagMask(mask: bool): (w: bv32)
    ensures Opcode(w) == DL_TAG_MASK
    ensures Bits(w, 0, 1) == Bit(mask)
    ensures Bits(w, 1, 23) == 0
  {
    Field(Bit(mask), 1, 0) | Field(0, 23, 1) | Field(0x14, 8, 24)
  }

  function Vertex2f(x: bv32, y: bv32): (w: bv32)
    ensures Opcode(w) & 0xC0 == DL_VERTEX2F
    ensures Bits(w, 0, 15) == y & 0x7FFF
    ensures Bits(w, 15, 15) == x & 0x7FFF
  {
    Field(y, 15, 0) | Field(x, 15, 15) | Field(0x01, 2, 30)
  }

  function Vertex2ii(x: bv32, y: bv32, handle: bv8, cell: bv8): (w: bv32)
    ensures Opcode(w) & 0xC0 == DL_VERTEX2II
    ensures Bits(w, 0, 7) == (cell as bv32) & 0x7F
    ensures Bits(w, 7, 5) == (handle as bv32) & 0x1F
    ensures Bits(w, 12, 9) == y & 0x1FF
    ensures Bits(w, 21, 9) == x & 0x1FF
  {
    Field(cell as bv32, 7, 0)
    | Field(handle as bv32, 5, 7)
    | Field(y, 9, 12)
    | Field(x, 9, 21)
    | Field(0x02, 2, 30)
  }

  function VertexFormat(frac: bv32): (w: bv32)
    ensures Opcode(w) == DL_VERTEX_FORMAT
    ensures Bits(w, 0, 3) == frac & 0x7
    ensures Bits(w, 3, 21) == 0
  {
    Field(frac, 3, 0) | Field(0, 21, 3) | Field(0x27, 8, 24)
  }

  function VertexTranslateX(x: bv32): (w: bv32)
    ensures Opcode(w) == DL_VERTEX_TRANSLATE_X
    ensures Bits(w, 0, 17) == x & 0x1FFFF
    ensures Bits(w, 17, 7) == 0
  {
    Field(x, 17, 0) | Field(0, 7, 17) | Field(0x2B, 8, 24)
  }

  function VertexTranslateY(y: bv32): (w: bv32)
    ensures Opcode(w) == DL_VERTEX_TRANSLATE_Y
    ensures Bits(w, 0, 17) == y & 0x1FFFF
    ensures Bits(w, 17, 7) == 0
  {
    Field(y, 17, 0) | Field(0, 7, 17) | Field(0x2C, 8, 24)
  }
}
