// Constants of the EVE header (src/include/Graphics/EVE/EVE.h): buffer sizes,
// display-list opcodes, graphics primitives, co-processor command codes and the
// registers the feeders and the surface write, with the two command-word makers.
module Eve {
  import opened Bytes

  const EVE_CMDFIFO_SIZE: nat := 4096
  const EVE_MEMORY_SIZE: nat := 0x400000

  // Display-list opcodes (the most significant byte of a display-list word).
  const DL_DISPLAY: bv32 := 0x00
  const DL_BITMAP_SOURCE: bv32 := 0x01
  const DL_CLEAR_COLOR_RGB: bv32 := 0x02
  const DL_TAG: bv32 := 0x03
  const DL_COLOR_RGB: bv32 := 0x04
  const DL_BITMAP_HANDLE: bv32 := 0x05
  const DL_CELL: bv32 := 0x06
  const DL_BITMAP_LAYOUT: bv32 := 0x07
  const DL_BITMAP_SIZE: bv32 := 0x08
  const DL_ALPHA_FUNC: bv32 := 0x09
  const DL_STENCIL_FUNC: bv32 := 0x0A
  const DL_BLEND_FUNC: bv32 := 0x0B
  const DL_STENCIL_OP: bv32 := 0x0C
  const DL_POINT_SIZE: bv32 := 0x0D
  const DL_LINE_WIDTH: bv32 := 0x0E
  const DL_CLEAR_COLOR_A: bv32 := 0x0F
  const DL_COLOR_A: bv32 := 0x10
  const DL_CLEAR_STENCIL: bv32 := 0x11
  const DL_CLEAR_TAG: bv32 := 0x12
  const DL_STENCIL_MASK: bv32 := 0x13
  const DL_TAG_MASK: bv32 := 0x14
  const DL_BITMAP_TRANSFORM_A: bv32 := 0x15
  const DL_BITMAP_TRANSFORM_B: bv32 := 0x16
  const DL_BITMAP_TRANSFORM_C: bv32 := 0x17
  const DL_BITMAP_TRANSFORM_D: bv32 := 0x18
  const DL_BITMAP_TRANSFORM_E: bv32 := 0x19
  const DL_BITMAP_TRANSFORM_F: bv32 := 0x1A
  const DL_SCISSOR_XY: bv32 := 0x1B
  const DL_SCISSOR_SIZE: bv32 := 0x1C
  const DL_CALL: bv32 := 0x1D
  const DL_JUMP: bv32 := 0x1E
  const DL_BEGIN: bv32 := 0x1F
  const DL_COLOR_MASK: bv32 := 0x20
  const DL_END: bv32 := 0x21
  const DL_SAVE_CONTEXT: bv32 := 0x22
  const DL_RESTORE_CONTEXT: bv32 := 0x23
  const DL_RETURN: bv32 := 0x24
  const DL_MACRO: bv32 := 0x25
  const DL_CLEAR: bv32 := 0x26
  const DL_VERTEX_FORMAT: bv32 := 0x27
  const DL_BITMAP_LAYOUT_H: bv32 := 0x28
  const DL_BITMAP_SIZE_H: bv32 := 0x29
  const DL_PALETTE_SOURCE: bv32 := 0x2A
  const DL_VERTEX_TRANSLATE_X: bv32 := 0x2B
  const DL_VERTEX_TRANSLATE_Y: bv32 := 0x2C
  const DL_NOP: bv32 := 0x2D
  const DL_VERTEX2F: bv32 := 0x40
  const DL_VERTEX2II: bv32 := 0x80

  // Graphics primitives for BEGIN.
  const GP_BITMAPS: bv32 := 1
  const GP_POINTS: bv32 := 2
  const GP_LINES: bv32 := 3
  const GP_LINE_STRIP: bv32 := 4
  const GP_EDGE_STRIP_R: bv32 := 5
  const GP_EDGE_STRIP_L: bv32 := 6
  const GP_EDGE_STRIP_A: bv32 := 7
  const GP_EDGE_STRIP_B: bv32 := 8
  const GP_RECTS: bv32 := 9

  // REG_PLAYBACK_FORMAT sample formats.
  const LINEAR: nat := 0
  const ULAW: nat := 1
  const ADPCM: nat := 2

  // Co-processor command codes (the least significant byte of 0xffffffxx).
  const CMD_DLSTART: bv32 := 0x00
  const CMD_SWAP: bv32 := 0x01
  const CMD_INTERRUPT: bv32 := 0x02
  const CMD_BGCOLOR: bv32 := 0x09
  const CMD_FGCOLOR: bv32 := 0x0A
  const CMD_GRADIENT: bv32 := 0x0B
  const CMD_TEXT: bv32 := 0x0C
  const CMD_BUTTON: bv32 := 0x0D
  const CMD_KEYS: bv32 := 0x0E
  const CMD_PROGRESS: bv32 := 0x0F
  const CMD_SLIDER: bv32 := 0x10
  const CMD_SCROLLBAR: bv32 := 0x11
  const CMD_TOGGLE: bv32 := 0x12
  const CMD_GAUGE: bv32 := 0x13
  const CMD_CLOCK: bv32 := 0x14
  const CMD_CALIBRATE: bv32 := 0x15
  const CMD_SPINNER: bv32 := 0x16
  const CMD_STOP: bv32 := 0x17
  const CMD_MEMCRC: bv32 := 0x18
  const CMD_REGREAD: bv32 := 0x19
  const CMD_MEMWRITE: bv32 := 0x1A
  const CMD_MEMSET: bv32 := 0x1B
  const CMD_MEMZERO: bv32 := 0x1C
  const CMD_MEMCPY: bv32 := 0x1D
  const CMD_APPEND: bv32 := 0x1E
  const CMD_SNAPSHOT: bv32 := 0x1F
  const CMD_INFLATE: bv32 := 0x22
  const CMD_GETPTR: bv32 := 0x23
  const CMD_LOADIMAGE: bv32 := 0x24
  const CMD_GETPROPS: bv32 := 0x25
  const CMD_LOADIDENTITY: bv32 := 0x26
  const CMD_TRANSLATE: bv32 := 0x27
  const CMD_SCALE: bv32 := 0x28
  const CMD_ROTATE: bv32 := 0x29
  const CMD_SETMATRIX: bv32 := 0x2A
  const CMD_SETFONT: bv32 := 0x2B
  const CMD_TRACK: bv32 := 0x2C
  const CMD_DIAL: bv32 := 0x2D
  const CMD_NUMBER: bv32 := 0x2E
  const CMD_SCREENSAVER: bv32 := 0x2F
  const CMD_SKETCH: bv32 := 0x30
  const CMD_LOGO: bv32 := 0x31
  const CMD_COLDSTART: bv32 := 0x32
  const CMD_GETMATRIX: bv32 := 0x33
  const CMD_GRADCOLOR: bv32 := 0x34
  const CMD_SETROTATE: bv32 := 0x36
  const CMD_SNAPSHOT2: bv32 := 0x37
  const CMD_SETBASE: bv32 := 0x38
  const CMD_MEDIAFIFO: bv32 := 0x39
  const CMD_PLAYVIDEO: bv32 := 0x3A
  const CMD_SETFONT2: bv32 := 0x3B
  const CMD_SETSCRATCH: bv32 := 0x3C
  const CMD_ROMFONT: bv32 := 0x3F
  const CMD_VIDEOSTART: bv32 := 0x40
  const CMD_VIDEOFRAME: bv32 := 0x41
  const CMD_SYNC: bv32 := 0x42
  const CMD_SETBITMAP: bv32 := 0x43

  // Registers used by the feeders and the surface.
  const REG_PLAYBACK_START: nat := 0x3020b4
  const REG_PLAYBACK_LENGTH: nat := 0x3020b8
  const REG_PLAYBACK_READPTR: nat := 0x3020bc
  const REG_PLAYBACK_FREQ: nat := 0x3020c0
  const REG_PLAYBACK_FORMAT: nat := 0x3020c4
  const REG_PLAYBACK_LOOP: nat := 0x3020c8
  const REG_PLAYBACK_PLAY: nat := 0x3020cc
  const REG_CMDB_SPACE: nat := 0x302574
  const REG_CMDB_WRITE: nat := 0x302578
  const REG_MEDIAFIFO_READ: nat := 0x309014
  const REG_MEDIAFIFO_WRITE: nat := 0x309018

  /** The opcode byte of a display-list word. */
  function Opcode(w: bv32): bv32 { w >> 24 }

  /** The 24-bit parameter area below the opcode. */
  function Param(w: bv32): bv32 { w & 0xFFFFFF }

  function MakeCmdWord(cmd: bv32, param: bv32): (w: bv32)
    ensures cmd < 0x100 && param < 0x1000000 ==> Opcode(w) == cmd && Param(w) == param
    ensures Param(w) == Param(param)
  {
    var w := (cmd << 24) | param;
    CmdWordFields(cmd, param, w);
    w
  }

  /** The opcode goes above the 24-bit parameter area and leaves it untouched. */
  lemma {:induction false} CmdWordFields(cmd: bv32, param: bv32, w: bv32)
    requires w == (cmd << 24) | param
    ensures cmd < 0x100 && param < 0x1000000 ==> Opcode(w) == cmd && Param(w) == param
    ensures Param(w) == Param(param)
  {
  }

  function MakeCoprocCmdWord(cmd: bv32): (w: bv32)
    ensures cmd < 0x100 ==> w >> 8 == 0xFFFFFF && w & 0xFF == cmd
  {
    0xffffff00 | cmd
  }

  function Bit(b: bool): bv32 { if b then 1 else 0 }
}
