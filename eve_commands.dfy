// The command tables of tools/eve.py: every display-list and co-processor
// command with its opcode and parameters, then `get_command`, which picks the
// command a 32-bit word belongs to, and `initialise`, which gives each
// co-processor parameter its byte offset when the module is loaded.
module EveCommands {
  import opened PyBits
  import opened EveTool
  import Eve
  import Coproc

  // Parameter types written inline in the display-list table.
  const BitmapFormat := Type("BitmapFormat", 5, false, Plain)
  const BitmapWrap := Type("BitmapWrap", 1, false, Plain)
  const BitmapFilter := Type("BitmapFilter", 1, false, Plain)
  const BlendFunction := Type("BlendFunction", 3, false, Plain)
  const GraphicsPrimitive := Type("GraphicsPrimitive", 4, false, Plain)

  // ------------------------------------------------ display-list commands
  // `DisplayListCommands`, tools/eve.py lines 401-569, one constant per entry
  // (the line is the entry's first line); parameters are listed from bit 0
  // upwards.
  const DL_DISPLAY := Command(0x00, "DISPLAY", [])  // eve.py:402
  const DL_BITMAP_SOURCE := Command(0x01, "BITMAP_SOURCE", [  // eve.py:403
    Param("addr", Address, None, None)])
  const DL_CLEAR_COLOR_RGB := Command(0x02, "CLEAR_COLOR_RGB", [  // eve.py:407
    Param("blue", ColorChannel, None, None),
    Param("green", ColorChannel, None, None),
    Param("red", ColorChannel, None, None)])
  const DL_TAG := Command(0x03, "TAG", [  // eve.py:412
    Param("tag", Tag, None, None)])
  const DL_COLOR_RGB := Command(0x04, "COLOR_RGB", [  // eve.py:416
    Param("blue", ColorChannel, None, None),
    Param("green", ColorChannel, None, None),
    Param("red", ColorChannel, None, None)])
  const DL_BITMAP_HANDLE := Command(0x05, "BITMAP_HANDLE", [  // eve.py:421
    Param("handle", Handle, None, None)])
  const DL_CELL := Command(0x06, "CELL", [  // eve.py:424
    Param("cell", Cell, None, None)])
  const DL_BITMAP_LAYOUT := Command(0x07, "BITMAP_LAYOUT", [  // eve.py:427
    Param("height", UInt32, Some(9), None),
    Param("linestride", UInt32, Some(10), None),
    Param("format", BitmapFormat, None, None)])
  const DL_BITMAP_SIZE := Command(0x08, "BITMAP_SIZE", [  // eve.py:432
    Param("height", UInt32, Some(9), None),
    Param("width", UInt32, Some(9), None),
    Param("wrapy", BitmapWrap, None, None),
    Param("wrapx", BitmapWrap, None, None),
    Param("filter", BitmapFilter, None, None)])
  const DL_ALPHA_FUNC := Command(0x09, "ALPHA_FUNC", [  // eve.py:439
    Param("ref", UInt8, None, None),
    Param("func", TestFunction, None, None)])
  const DL_STENCIL_FUNC := Command(0x0A, "STENCIL_FUNC", [  // eve.py:443
    Param("mask", UInt8, None, None),
    Param("ref", UInt8, None, None),
    Param("func", TestFunction, None, None)])
  const DL_BLEND_FUNC := Command(0x0B, "BLEND_FUNC", [  // eve.py:448
    Param("dst", BlendFunction, None, None),
    Param("src", BlendFunction, None, None)])
  const DL_STENCIL_OP := Command(0x0C, "STENCIL_OP", [  // eve.py:452
    Param("spass", StencilOp, None, None),
    Param("sfail", StencilOp, None, None)])
  const DL_POINT_SIZE := Command(0x0D, "POINT_SIZE", [  // eve.py:456
    Param("size", UInt32, Some(13), None)])
  const DL_LINE_WIDTH := Command(0x0E, "LINE_WIDTH", [  // eve.py:459
    Param("width", UInt32, Some(12), None)])
  const DL_CLEAR_COLOR_A := Command(0x0F, "CLEAR_COLOR_A", [  // eve.py:462
    Param("alpha", ColorChannel, None, None)])
  const DL_COLOR_A := Command(0x10, "COLOR_A", [  // eve.py:465
    Param("alpha", ColorChannel, None, None)])
  const DL_CLEAR_STENCIL := Command(0x11, "CLEAR_STENCIL", [  // eve.py:468
    Param("s", ColorChannel, None, None)])
  const DL_CLEAR_TAG := Command(0x12, "CLEAR_TAG", [  // eve.py:471
    Param("tag", Tag, None, None)])
  const DL_STENCIL_MASK := Command(0x13, "STENCIL_MASK", [  // eve.py:474
    Param("mask", UInt8, None, None)])
  const DL_TAG_MASK := Command(0x14, "TAG_MASK", [  // eve.py:477
    Param("mask", Boolean, None, None)])
  const DL_BITMAP_TRANSFORM_A := Command(0x15, "BITMAP_TRANSFORM_A", [  // eve.py:483
    Param("a", Fixed8_8, None, None)])
  const DL_BITMAP_TRANSFORM_B := Command(0x16, "BITMAP_TRANSFORM_B", [  // eve.py:486
    Param("b", Fixed8_8, None, None)])
  const DL_BITMAP_TRANSFORM_C := Command(0x17, "BITMAP_TRANSFORM_C", [  // eve.py:489
    Param("c", Fixed15_8, None, None)])
  const DL_BITMAP_TRANSFORM_D := Command(0x18, "BITMAP_TRANSFORM_D", [  // eve.py:492
    Param("d", Fixed8_8, None, None)])
  const DL_BITMAP_TRANSFORM_E := Command(0x19, "BITMAP_TRANSFORM_E", [  // eve.py:495
    Param("e", Fixed8_8, None, None)])
  const DL_BITMAP_TRANSFORM_F := Command(0x1A, "BITMAP_TRANSFORM_F", [  // eve.py:498
    Param("f", Fixed15_8, None, None)])
  const DL_SCISSOR_XY := Command(0x1B, "SCISSOR_XY", [  // eve.py:501
    Param("y", UInt32, Some(11), None),
    Param("x", UInt32, Some(11), None)])
  const DL_SCISSOR_SIZE := Command(0x1C, "SCISSOR_SIZE", [  // eve.py:505
    Param("height", UInt32, Some(12), None),
    Param("width", UInt32, Some(12), None)])
  const DL_CALL := Command(0x1D, "CALL", [  // eve.py:509
    Param("dest", DisplayListOffset, None, None)])
  const DL_JUMP := Command(0x1E, "JUMP", [  // eve.py:512
    Param("dest", DisplayListOffset, None, None)])
  const DL_BEGIN := Command(0x1F, "BEGIN", [  // eve.py:515
    Param("prim", GraphicsPrimitive, None, None)])
  const DL_COLOR_MASK := Command(0x20, "COLOR_MASK", [  // eve.py:518
    Param("a", Boolean, None, None),
    Param("b", Boolean, None, None),
    Param("g", Boolean, None, None),
    Param("r", Boolean, None, None)])
  const DL_END := Command(0x21, "END", [])  // eve.py:524
  const DL_SAVE_CONTEXT := Command(0x22, "SAVE_CONTEXT", [])  // eve.py:526
  const DL_RESTORE_CONTEXT := Command(0x23, "RESTORE_CONTEXT", [])  // eve.py:527
  const DL_RETURN := Command(0x24, "RETURN", [])  // eve.py:528
  const DL_MACRO := Command(0x25, "MACRO", [  // eve.py:529
    Param("m", UInt32, Some(1), None)])
  const DL_CLEAR := Command(0x26, "CLEAR", [  // eve.py:532
    Param("t", Boolean, None, None),
    Param("s", Boolean, None, None),
    Param("c", Boolean, None, None)])
  const DL_VERTEX_FORMAT := Command(0x27, "VERTEX_FORMAT", [  // eve.py:537
    Param("frac", UInt32, Some(3), None)])
  const DL_BITMAP_LAYOUT_H := Command(0x28, "BITMAP_LAYOUT_H", [  // eve.py:540
    Param("height", UInt32, Some(2), None),
    Param("linestride", UInt32, Some(2), None)])
  const DL_BITMAP_SIZE_H := Command(0x29, "BITMAP_SIZE_H", [  // eve.py:544
    Param("height", UInt32, Some(2), None),
    Param("width", UInt32, Some(2), None)])
  const DL_PALETTE_SOURCE := Command(0x2A, "PALETTE_SOURCE", [  // eve.py:548
    Param("addr", Address, None, None)])
  const DL_VERTEX_TRANSLATE_X := Command(0x2B, "VERTEX_TRANSLATE_X", [  // eve.py:551
    Param("x", UInt32, Some(17), None)])
  const DL_VERTEX_TRANSLATE_Y := Command(0x2C, "VERTEX_TRANSLATE_Y", [  // eve.py:554
    Param("y", UInt32, Some(17), None)])
  const DL_NOP := Command(0x2D, "NOP", [])  // eve.py:557
  const DL_VERTEX2F := Command(0x40, "VERTEX2F", [  // eve.py:559
    Param("y", UInt32, Some(15), None),
    Param("x", UInt32, Some(15), None)])
  const DL_VERTEX2II := Command(0x80, "VERTEX2II", [  // eve.py:563
    Param("cell", Cell, None, None),
    Param("handle", Handle, None, None),
    Param("y", UInt32, Some(9), None),
    Param("x", UInt32, Some(9), None)])

  // The list, in groups of four entries.
  const DisplayListCommands: seq<Command> :=
    [DL_DISPLAY, DL_BITMAP_SOURCE, DL_CLEAR_COLOR_RGB, DL_TAG]
    + [DL_COLOR_RGB, DL_BITMAP_HANDLE, DL_CELL, DL_BITMAP_LAYOUT]
    + [DL_BITMAP_SIZE, DL_ALPHA_FUNC, DL_STENCIL_FUNC, DL_BLEND_FUNC]
    + [DL_STENCIL_OP, DL_POINT_SIZE, DL_LINE_WIDTH, DL_CLEAR_COLOR_A]
    + [DL_COLOR_A, DL_CLEAR_STENCIL, DL_CLEAR_TAG, DL_STENCIL_MASK]
    + [DL_TAG_MASK, DL_BITMAP_TRANSFORM_A, DL_BITMAP_TRANSFORM_B, DL_BITMAP_TRANSFORM_C]
    + [DL_BITMAP_TRANSFORM_D, DL_BITMAP_TRANSFORM_E, DL_BITMAP_TRANSFORM_F, DL_SCISSOR_XY]
    + [DL_SCISSOR_SIZE, DL_CALL, DL_JUMP, DL_BEGIN]
    + [DL_COLOR_MASK, DL_END, DL_SAVE_CONTEXT, DL_RESTORE_CONTEXT]
    + [DL_RETURN, DL_MACRO, DL_CLEAR, DL_VERTEX_FORMAT]
    + [DL_BITMAP_LAYOUT_H, DL_BITMAP_SIZE_H, DL_PALETTE_SOURCE, DL_VERTEX_TRANSLATE_X]
    + [DL_VERTEX_TRANSLATE_Y, DL_NOP, DL_VERTEX2F, DL_VERTEX2II]

  // ------------------------------------------------- co-processor commands
  // `CoprocessorCommands`, tools/eve.py lines 628-901, as declared: no
  // parameter has an offset until `initialise` has run.
  const CMD_DLSTART := Command(0x00, "DLSTART", [])  // eve.py:629
  const CMD_SWAP := Command(0x01, "SWAP", [])  // eve.py:631
  const CMD_INTERRUPT := Command(0x02, "INTERRUPT", [  // eve.py:635
    Param("ms", UInt32, None, None)])
  const CMD_BGCOLOR := Command(0x09, "BGCOLOR", [  // eve.py:639
    Param("color", RGB, None, None)])
  const CMD_FGCOLOR := Command(0x0A, "FGCOLOR", [  // eve.py:642
    Param("color", RGB, None, None)])
  const CMD_GRADIENT := Command(0x0B, "GRADIENT", [  // eve.py:645
    Param("x0", Int16, None, None),
    Param("y0", Int16, None, None),
    Param("rgb0", RGB, None, None),
    Param("x1", Int16, None, None),
    Param("y1", Int16, None, None),
    Param("rgb1", RGB, None, None)])
  const CMD_TEXT := Command(0x0C, "TEXT", [  // eve.py:653
    Param("x", Int16, None, None),
    Param("y", Int16, None, None),
    Param("font", Handle, Some(16), None),
    Param("options", Options, None, None),
    Param("s", CString, None, None)])
  const CMD_BUTTON := Command(0x0D, "BUTTON", [  // eve.py:660
    Param("x", Int16, None, None),
    Param("y", Int16, None, None),
    Param("w", UInt16, None, None),
    Param("h", UInt16, None, None),
    Param("font", Handle, None, None),
    Param("options", Options, None, None),
    Param("s", CString, None, None)])
  const CMD_KEYS := Command(0x0E, "KEYS", [  // eve.py:669
    Param("x", Int16, None, None),
    Param("y", Int16, None, None),
    Param("w", UInt16, None, None),
    Param("h", UInt16, None, None),
    Param("font", Handle, None, None),
    Param("options", Options, None, None),
    Param("s", CString, None, None)])
  const CMD_PROGRESS := Command(0x0F, "PROGRESS", [  // eve.py:678
    Param("x", Int16, None, None),
    Param("y", Int16, None, None),
    Param("w", UInt16, None, None),
    Param("h", UInt16, None, None),
    Param("options", Options, None, None),
    Param("value", UInt16, None, None),
    Param("range", UInt16, None, None)])
  const CMD_SLIDER := Command(0x10, "SLIDER", [  // eve.py:687
    Param("x", Int16, None, None),
    Param("y", Int16, None, None),
    Param("w", UInt16, None, None),
    Param("h", UInt16, None, None),
    Param("options", Options, None, None),
    Param("value", UInt16, None, None),
    Param("range", UInt16, None, None)])
  const CMD_SCROLLBAR := Command(0x11, "SCROLLBAR", [  // eve.py:696
    Param("x", Int16, None, None),
    Param("y", Int16, None, None),
    Param("w", UInt16, None, None),
    Param("h", UInt16, None, None),
    Param("options", Options, None, None),
    Param("value", UInt16, None, None),
    Param("size", UInt16, None, None),
    Param("range", UInt16, None, None)])
  const CMD_TOGGLE := Command(0x12, "TOGGLE", [  // eve.py:706
    Param("x", Int16, None, None),
    Param("y", Int16, None, None),
    Param("w", UInt16, None, None),
    Param("font", Handle, None, None),
    Param("options", Options, None, None),
    Param("state", UInt16, None, None),
    Param("s", CString, None, None)])
  const CMD_GAUGE := Command(0x13, "GAUGE", [  // eve.py:715
    Param("x", Int16, None, None),
    Param("y", Int16, None, None),
    Param("r", UInt16, None, None),
    Param("options", Options, None, None),
    Param("major", UInt16, None, None),
    Param("minor", UInt16, None, None),
    Param("value", UInt16, None, None),
    Param("range", UInt16, None, None)])
  const CMD_CLOCK := Command(0x14, "CLOCK", [  // eve.py:725
    Param("x", Int16, None, None),
    Param("y", Int16, None, None),
    Param("r", UInt16, None, None),
    Param("options", Options, None, None),
    Param("h", UInt16, None, None),
    Param("m", UInt16, None, None),
    Param("s", UInt16, None, None),
    Param("ms", UInt16, None, None)])
  const CMD_CALIBRATE := Command(0x15, "CALIBRATE", [  // eve.py:735
    Param("result", UInt32, None, None)])
  const CMD_SPINNER := Command(0x16, "SPINNER", [  // eve.py:738
    Param("x", Int16, None, None),
    Param("y", Int16, None, None),
    Param("style", UInt16, None, None),
    Param("scale", UInt16, None, None)])
  const CMD_STOP := Command(0x17, "STOP", [])  // eve.py:744
  const CMD_MEMCRC := Command(0x18, "MEMCRC", [  // eve.py:745
    Param("ptr", Address, None, None),
    Param("num", UInt32, None, None),
    Param("result", UInt32, None, None)])
  const CMD_REGREAD := Command(0x19, "REGREAD", [  // eve.py:750
    Param("ptr", Address, None, None),
    Param("result", UInt32, None, None)])
  const CMD_MEMWRITE := Command(0x1A, "MEMWRITE", [  // eve.py:754
    Param("ptr", Address, None, None),
    Param("num", UInt32, None, None),
    Param("data", DataBlock(Some("num")), None, None)])
  const CMD_MEMSET := Command(0x1B, "MEMSET", [  // eve.py:759
    Param("ptr", Address, None, None),
    Param("value", UInt8, None, None),
    Param("num", UInt32, None, None)])
  const CMD_MEMZERO := Command(0x1C, "MEMZERO", [  // eve.py:764
    Param("ptr", Address, None, None),
    Param("num", UInt32, None, None)])
  const CMD_MEMCPY := Command(0x1D, "MEMCPY", [  // eve.py:768
    Param("dest", Address, None, None),
    Param("src", Address, None, None),
    Param("num", UInt32, None, None)])
  const CMD_APPEND := Command(0x1E, "APPEND", [  // eve.py:773
    Param("ptr", Address, None, None),
    Param("num", UInt32, None, None)])
  const CMD_SNAPSHOT := Command(0x1F, "SNAPSHOT", [  // eve.py:777
    Param("ptr", Address, None, None)])
  const CMD_INFLATE := Command(0x22, "INFLATE", [  // eve.py:780
    Param("ptr", Address, None, None),
    Param("data", DataBlock(None), None, None)])
  const CMD_GETPTR := Command(0x23, "GETPTR", [  // eve.py:784
    Param("result", Int32, None, None)])
  const CMD_LOADIMAGE := Command(0x24, "LOADIMAGE", [  // eve.py:787
    Param("ptr", Address, None, None),
    Param("options", Options, None, None)])
  const CMD_GETPROPS := Command(0x25, "GETPROPS", [  // eve.py:791
    Param("ptr", Address, None, None),
    Param("width", UInt32, None, None),
    Param("height", UInt32, None, None)])
  const CMD_LOADIDENTITY := Command(0x26, "LOADIDENTITY", [])  // eve.py:796
  const CMD_TRANSLATE := Command(0x27, "TRANSLATE", [  // eve.py:797
    Param("tx", Fixed16_16, None, None),
    Param("ty", Fixed16_16, None, None)])
  const CMD_SCALE := Command(0x28, "SCALE", [  // eve.py:801
    Param("sx", Fixed16_16, None, None),
    Param("sy", Fixed16_16, None, None)])
  const CMD_ROTATE := Command(0x29, "ROTATE", [  // eve.py:805
    Param("a", Angle, None, None)])
  const CMD_SETMATRIX := Command(0x2A, "SETMATRIX", [])  // eve.py:808
  const CMD_SETFONT := Command(0x2B, "SETFONT", [  // eve.py:809
    Param("font", Handle, None, None),
    Param("ptr", Address, None, None)])
  const CMD_TRACK := Command(0x2C, "TRACK", [  // eve.py:813
    Param("x", Int16, None, None),
    Param("y", Int16, None, None),
    Param("w", UInt16, None, None),
    Param("h", UInt16, None, None),
    Param("tag", UInt8, None, None)])
  const CMD_DIAL := Command(0x2D, "DIAL", [  // eve.py:820
    Param("x", Int16, None, None),
    Param("y", Int16, None, None),
    Param("r", UInt16, None, None),
    Param("options", Options, None, None),
    Param("value", UInt16, None, None)])
  const CMD_NUMBER := Command(0x2E, "NUMBER", [  // eve.py:827
    Param("x", Int16, None, None),
    Param("y", Int16, None, None),
    Param("font", Handle, None, None),
    Param("options", Options, None, None),
    Param("n", Int32, None, None)])
  const CMD_SCREENSAVER := Command(0x2F, "SCREENSAVER", [])  // eve.py:834
  const CMD_SKETCH := Command(0x30, "SKETCH", [])  // eve.py:835
  const CMD_LOGO := Command(0x31, "LOGO", [])  // eve.py:836
  const CMD_COLDSTART := Command(0x32, "COLDSTART", [])  // eve.py:837
  const CMD_GETMATRIX := Command(0x33, "GETMATRIX", [  // eve.py:838
    Param("a", Fixed8_8, None, None),
    Param("b", Fixed8_8, None, None),
    Param("c", Fixed8_8, None, None),
    Param("d", Fixed8_8, None, None),
    Param("e", Fixed8_8, None, None),
    Param("f", Fixed8_8, None, None)])
  const CMD_GRADCOLOR := Command(0x34, "GRADCOLOR", [  // eve.py:846
    Param("color", RGB, None, None)])
  const CMD_SETROTATE := Command(0x36, "SETROTATE", [  // eve.py:849
    Param("r", UInt8, None, None)])
  const CMD_SNAPSHOT2 := Command(0x37, "SNAPSHOT2", [  // eve.py:852
    Param("fmt", UInt8, None, None),
    Param("ptr", Address, None, None),
    Param("x", Int16, None, None),
    Param("y", Int16, None, None),
    Param("w", UInt16, None, None),
    Param("h", UInt16, None, None)])
  const CMD_SETBASE := Command(0x38, "SETBASE", [  // eve.py:860
    Param("b", UInt8, None, None)])
  const CMD_MEDIAFIFO := Command(0x39, "MEDIAFIFO", [  // eve.py:863
    Param("ptr", Address, None, None),
    Param("size", UInt32, None, None)])
  const CMD_PLAYVIDEO := Command(0x3A, "PLAYVIDEO", [  // eve.py:867
    Param("options", Options, None, None)])
  const CMD_SETFONT2 := Command(0x3B, "SETFONT2", [  // eve.py:870
    Param("font", Handle, None, None),
    Param("ptr", Address, None, None),
    Param("firstchar", UInt8, None, None)])
  const CMD_SETSCRATCH := Command(0x3C, "SETSCRATCH", [  // eve.py:875
    Param("handle", Handle, None, None)])
  const CMD_ROMFONT := Command(0x3F, "ROMFONT", [  // eve.py:878
    Param("font", Handle, Some(32), None),
    Param("romslot", UInt8, None, None)])
  const CMD_VIDEOSTART := Command(0x40, "VIDEOSTART", [])  // eve.py:882
  const CMD_VIDEOFRAME := Command(0x41, "VIDEOFRAME", [  // eve.py:883
    Param("dst", Address, None, None),
    Param("ptr", Address, None, None)])
  const CMD_SETBITMAP := Command(0x43, "SETBITMAP", [  // eve.py:887
    Param("source", Address, None, None),
    Param("fmt", UInt8, None, None),
    Param("width", UInt16, None, None),
    Param("height", UInt16, None, None)])
  const CMD_GRADIENTA := Command(0x57, "GRADIENTA", [  // eve.py:893
    Param("x0", Int16, None, None),
    Param("y0", Int16, None, None),
    Param("argb0", ARGB, None, None),
    Param("x1", Int16, None, None),
    Param("y1", Int16, None, None),
    Param("argb1", ARGB, None, None)])

  // The list, in groups of four entries.
  const CoprocessorCommands: seq<Command> :=
    [CMD_DLSTART, CMD_SWAP, CMD_INTERRUPT, CMD_BGCOLOR]
    + [CMD_FGCOLOR, CMD_GRADIENT, CMD_TEXT, CMD_BUTTON]
    + [CMD_KEYS, CMD_PROGRESS, CMD_SLIDER, CMD_SCROLLBAR]
    + [CMD_TOGGLE, CMD_GAUGE, CMD_CLOCK, CMD_CALIBRATE]
    + [CMD_SPINNER, CMD_STOP, CMD_MEMCRC, CMD_REGREAD]
    + [CMD_MEMWRITE, CMD_MEMSET, CMD_MEMZERO, CMD_MEMCPY]
    + [CMD_APPEND, CMD_SNAPSHOT, CMD_INFLATE, CMD_GETPTR]
    + [CMD_LOADIMAGE, CMD_GETPROPS, CMD_LOADIDENTITY, CMD_TRANSLATE]
    + [CMD_SCALE, CMD_ROTATE, CMD_SETMATRIX, CMD_SETFONT]
    + [CMD_TRACK, CMD_DIAL, CMD_NUMBER, CMD_SCREENSAVER]
    + [CMD_SKETCH, CMD_LOGO, CMD_COLDSTART, CMD_GETMATRIX]
    + [CMD_GRADCOLOR, CMD_SETROTATE, CMD_SNAPSHOT2, CMD_SETBASE]
    + [CMD_MEDIAFIFO, CMD_PLAYVIDEO, CMD_SETFONT2, CMD_SETSCRATCH]
    + [CMD_ROMFONT, CMD_VIDEOSTART, CMD_VIDEOFRAME, CMD_SETBITMAP]
    + [CMD_GRADIENTA]

  /** The display-list opcodes agree with the constants of EVE.h. */
  lemma DisplayListOpcodesAgree()
    ensures DL_DISPLAY.code == Eve.DL_DISPLAY as int
    ensures DL_BITMAP_SOURCE.code == Eve.DL_BITMAP_SOURCE as int
    ensures DL_CLEAR_COLOR_RGB.code == Eve.DL_CLEAR_COLOR_RGB as int
    ensures DL_TAG.code == Eve.DL_TAG as int
    ensures DL_COLOR_RGB.code == Eve.DL_COLOR_RGB as int
    ensures DL_BITMAP_HANDLE.code == Eve.DL_BITMAP_HANDLE as int
    ensures DL_CELL.code == Eve.DL_CELL as int
    ensures DL_BITMAP_LAYOUT.code == Eve.DL_BITMAP_LAYOUT as int
    ensures DL_BITMAP_SIZE.code == Eve.DL_BITMAP_SIZE as int
    ensures DL_ALPHA_FUNC.code == Eve.DL_ALPHA_FUNC as int
    ensures DL_STENCIL_FUNC.code == Eve.DL_STENCIL_FUNC as int
    ensures DL_BLEND_FUNC.code == Eve.DL_BLEND_FUNC as int
    ensures DL_STENCIL_OP.code == Eve.DL_STENCIL_OP as int
    ensures DL_POINT_SIZE.code == Eve.DL_POINT_SIZE as int
    ensures DL_LINE_WIDTH.code == Eve.DL_LINE_WIDTH as int
    ensures DL_CLEAR_COLOR_A.code == Eve.DL_CLEAR_COLOR_A as int
    ensures DL_COLOR_A.code == Eve.DL_COLOR_A as int
    ensures DL_CLEAR_STENCIL.code == Eve.DL_CLEAR_STENCIL as int
    ensures DL_CLEAR_TAG.code == Eve.DL_CLEAR_TAG as int
    ensures DL_STENCIL_MASK.code == Eve.DL_STENCIL_MASK as int
    ensures DL_TAG_MASK.code == Eve.DL_TAG_MASK as int
    ensures DL_BITMAP_TRANSFORM_A.code == Eve.DL_BITMAP_TRANSFORM_A as int
    ensures DL_BITMAP_TRANSFORM_B.code == Eve.DL_BITMAP_TRANSFORM_B as int
    ensures DL_BITMAP_TRANSFORM_C.code == Eve.DL_BITMAP_TRANSFORM_C as int
    ensures DL_BITMAP_TRANSFORM_D.code == Eve.DL_BITMAP_TRANSFORM_D as int
    ensures DL_BITMAP_TRANSFORM_E.code == Eve.DL_BITMAP_TRANSFORM_E as int
    ensures DL_BITMAP_TRANSFORM_F.code == Eve.DL_BITMAP_TRANSFORM_F as int
    ensures DL_SCISSOR_XY.code == Eve.DL_SCISSOR_XY as int
    ensures DL_SCISSOR_SIZE.code == Eve.DL_SCISSOR_SIZE as int
    ensures DL_CALL.code == Eve.DL_CALL as int
    ensures DL_JUMP.code == Eve.DL_JUMP as int
    ensures DL_BEGIN.code == Eve.DL_BEGIN as int
    ensures DL_COLOR_MASK.code == Eve.DL_COLOR_MASK as int
    ensures DL_END.code == Eve.DL_END as int
    ensures DL_SAVE_CONTEXT.code == Eve.DL_SAVE_CONTEXT as int
    ensures DL_RESTORE_CONTEXT.code == Eve.DL_RESTORE_CONTEXT as int
    ensures DL_RETURN.code == Eve.DL_RETURN as int
    ensures DL_MACRO.code == Eve.DL_MACRO as int
    ensures DL_CLEAR.code == Eve.DL_CLEAR as int
    ensures DL_VERTEX_FORMAT.code == Eve.DL_VERTEX_FORMAT as int
    ensures DL_BITMAP_LAYOUT_H.code == Eve.DL_BITMAP_LAYOUT_H as int
    ensures DL_BITMAP_SIZE_H.code == Eve.DL_BITMAP_SIZE_H as int
    ensures DL_PALETTE_SOURCE.code == Eve.DL_PALETTE_SOURCE as int
    ensures DL_VERTEX_TRANSLATE_X.code == Eve.DL_VERTEX_TRANSLATE_X as int
    ensures DL_VERTEX_TRANSLATE_Y.code == Eve.DL_VERTEX_TRANSLATE_Y as int
    ensures DL_NOP.code == Eve.DL_NOP as int
    ensures DL_VERTEX2F.code == Eve.DL_VERTEX2F as int
    ensures DL_VERTEX2II.code == Eve.DL_VERTEX2II as int
  {
  }

  /** The co-processor opcodes agree with the constants of EVE.h (and the literal command_defs.h uses for GRADIENTA). */
  lemma CoprocessorOpcodesAgree()
    ensures CMD_DLSTART.code == Eve.CMD_DLSTART as int
    ensures CMD_SWAP.code == Eve.CMD_SWAP as int
    ensures CMD_INTERRUPT.code == Eve.CMD_INTERRUPT as int
    ensures CMD_BGCOLOR.code == Eve.CMD_BGCOLOR as int
    ensures CMD_FGCOLOR.code == Eve.CMD_FGCOLOR as int
    ensures CMD_GRADIENT.code == Eve.CMD_GRADIENT as int
    ensures CMD_TEXT.code == Eve.CMD_TEXT as int
    ensures CMD_BUTTON.code == Eve.CMD_BUTTON as int
    ensures CMD_KEYS.code == Eve.CMD_KEYS as int
    ensures CMD_PROGRESS.code == Eve.CMD_PROGRESS as int
    ensures CMD_SLIDER.code == Eve.CMD_SLIDER as int
    ensures CMD_SCROLLBAR.code == Eve.CMD_SCROLLBAR as int
    ensures CMD_TOGGLE.code == Eve.CMD_TOGGLE as int
    ensures CMD_GAUGE.code == Eve.CMD_GAUGE as int
    ensures CMD_CLOCK.code == Eve.CMD_CLOCK as int
    ensures CMD_CALIBRATE.code == Eve.CMD_CALIBRATE as int
    ensures CMD_SPINNER.code == Eve.CMD_SPINNER as int
    ensures CMD_STOP.code == Eve.CMD_STOP as int
    ensures CMD_MEMCRC.code == Eve.CMD_MEMCRC as int
    ensures CMD_REGREAD.code == Eve.CMD_REGREAD as int
    ensures CMD_MEMWRITE.code == Eve.CMD_MEMWRITE as int
    ensures CMD_MEMSET.code == Eve.CMD_MEMSET as int
    ensures CMD_MEMZERO.code == Eve.CMD_MEMZERO as int
    ensures CMD_MEMCPY.code == Eve.CMD_MEMCPY as int
    ensures CMD_APPEND.code == Eve.CMD_APPEND as int
    ensures CMD_SNAPSHOT.code == Eve.CMD_SNAPSHOT as int
    ensures CMD_INFLATE.code == Eve.CMD_INFLATE as int
    ensures CMD_GETPTR.code == Eve.CMD_GETPTR as int
    ensures CMD_LOADIMAGE.code == Eve.CMD_LOADIMAGE as int
    ensures CMD_GETPROPS.code == Eve.CMD_GETPROPS as int
    ensures CMD_LOADIDENTITY.code == Eve.CMD_LOADIDENTITY as int
    ensures CMD_TRANSLATE.code == Eve.CMD_TRANSLATE as int
    ensures CMD_SCALE.code == Eve.CMD_SCALE as int
    ensures CMD_ROTATE.code == Eve.CMD_ROTATE as int
    ensures CMD_SETMATRIX.code == Eve.CMD_SETMATRIX as int
    ensures CMD_SETFONT.code == Eve.CMD_SETFONT as int
    ensures CMD_TRACK.code == Eve.CMD_TRACK as int
    ensures CMD_DIAL.code == Eve.CMD_DIAL as int
    ensures CMD_NUMBER.code == Eve.CMD_NUMBER as int
    ensures CMD_SCREENSAVER.code == Eve.CMD_SCREENSAVER as int
    ensures CMD_SKETCH.code == Eve.CMD_SKETCH as int
    ensures CMD_LOGO.code == Eve.CMD_LOGO as int
    ensures CMD_COLDSTART.code == Eve.CMD_COLDSTART as int
    ensures CMD_GETMATRIX.code == Eve.CMD_GETMATRIX as int
    ensures CMD_GRADCOLOR.code == Eve.CMD_GRADCOLOR as int
    ensures CMD_SETROTATE.code == Eve.CMD_SETROTATE as int
    ensures CMD_SNAPSHOT2.code == Eve.CMD_SNAPSHOT2 as int
    ensures CMD_SETBASE.code == Eve.CMD_SETBASE as int
    ensures CMD_MEDIAFIFO.code == Eve.CMD_MEDIAFIFO as int
    ensures CMD_PLAYVIDEO.code == Eve.CMD_PLAYVIDEO as int
    ensures CMD_SETFONT2.code == Eve.CMD_SETFONT2 as int
    ensures CMD_SETSCRATCH.code == Eve.CMD_SETSCRATCH as int
    ensures CMD_ROMFONT.code == Eve.CMD_ROMFONT as int
    ensures CMD_VIDEOSTART.code == Eve.CMD_VIDEOSTART as int
    ensures CMD_VIDEOFRAME.code == Eve.CMD_VIDEOFRAME as int
    ensures CMD_SETBITMAP.code == Eve.CMD_SETBITMAP as int
    ensures CMD_GRADIENTA.code == Coproc.CMD_GRADIENTA as int
  {
  }

  /** No entry of `cmds` has the opcode `code`, checked entry by entry. */
  predicate Lacks(cmds: seq<Command>, code: nat)
    decreases |cmds|
  {
    cmds == [] || (cmds[0].code != code && Lacks(cmds[1..], code))
  }

  lemma {:induction false} LacksAll(cmds: seq<Command>, code: nat)
    requires Lacks(cmds, code)
    ensures forall c :: c in cmds ==> c.code != code
    decreases |cmds|
  {
    if cmds != [] {
      LacksAll(cmds[1..], code);
      assert forall c :: c in cmds ==> c == cmds[0] || c in cmds[1..];
    }
  }

  lemma {:induction false} LacksConcat(a: seq<Command>, b: seq<Command>, code: nat)
    requires Lacks(a, code) && Lacks(b, code)
    ensures Lacks(a + b, code)
    decreases |a|
  {
    if a == [] {
      assert a + b == b;
    } else {
      assert (a + b)[0] == a[0] && (a + b)[1..] == a[1..] + b;
      LacksConcat(a[1..], b, code);
    }
  }

  /** Entries none of which has the opcode `code`. */
  lemma {:induction false} LacksEach(cmds: seq<Command>, code: nat)
    requires forall i :: 0 <= i < |cmds| ==> cmds[i].code != code
    ensures Lacks(cmds, code)
    decreases |cmds|
  {
    if cmds != [] {
      assert cmds[0].code != code;
      LacksEach(cmds[1..], code);
    }
  }

  /** CMD_SYNC of EVE.h has no entry in the co-processor table. */
  lemma SyncAbsent()
    ensures forall c :: c in CoprocessorCommands ==> c.code != Eve.CMD_SYNC as int
  {
    SyncLacking4();
    assert CoprocessorCommands == Run1 + Run2 + Run3 + Run4 + Run5 + Run6 + Run7 + Run8 + Run9 + Run10 + Run11 + Run12 + Run13 + Run14 + Run15;
    LacksAll(CoprocessorCommands, Eve.CMD_SYNC as int);
  }

  // The table in runs of four entries, for the proof of SyncAbsent.
  const Run1: seq<Command> := [CMD_DLSTART, CMD_SWAP, CMD_INTERRUPT, CMD_BGCOLOR]
  const Run2: seq<Command> := [CMD_FGCOLOR, CMD_GRADIENT, CMD_TEXT, CMD_BUTTON]
  const Run3: seq<Command> := [CMD_KEYS, CMD_PROGRESS, CMD_SLIDER, CMD_SCROLLBAR]
  const Run4: seq<Command> := [CMD_TOGGLE, CMD_GAUGE, CMD_CLOCK, CMD_CALIBRATE]
  const Run5: seq<Command> := [CMD_SPINNER, CMD_STOP, CMD_MEMCRC, CMD_REGREAD]
  const Run6: seq<Command> := [CMD_MEMWRITE, CMD_MEMSET, CMD_MEMZERO, CMD_MEMCPY]
  const Run7: seq<Command> := [CMD_APPEND, CMD_SNAPSHOT, CMD_INFLATE, CMD_GETPTR]
  const Run8: seq<Command> := [CMD_LOADIMAGE, CMD_GETPROPS, CMD_LOADIDENTITY, CMD_TRANSLATE]
  const Run9: seq<Command> := [CMD_SCALE, CMD_ROTATE, CMD_SETMATRIX, CMD_SETFONT]
  const Run10: seq<Command> := [CMD_TRACK, CMD_DIAL, CMD_NUMBER, CMD_SCREENSAVER]
  const Run11: seq<Command> := [CMD_SKETCH, CMD_LOGO, CMD_COLDSTART, CMD_GETMATRIX]
  const Run12: seq<Command> := [CMD_GRADCOLOR, CMD_SETROTATE, CMD_SNAPSHOT2, CMD_SETBASE]
  const Run13: seq<Command> := [CMD_MEDIAFIFO, CMD_PLAYVIDEO, CMD_SETFONT2, CMD_SETSCRATCH]
  const Run14: seq<Command> := [CMD_ROMFONT, CMD_VIDEOSTART, CMD_VIDEOFRAME, CMD_SETBITMAP]
  const Run15: seq<Command> := [CMD_GRADIENTA]

  /** The first 20 entries of the table lack the opcode of CMD_SYNC. */
  lemma SyncLacking1()
    ensures Lacks(Run1 + Run2 + Run3 + Run4 + Run5, Eve.CMD_SYNC as int)
  {
    var sync := Eve.CMD_SYNC as int;
    LacksEach(Run1, sync);
    LacksEach(Run2, sync);
    LacksConcat(Run1, Run2, sync);
    LacksEach(Run3, sync);
    LacksConcat(Run1 + Run2, Run3, sync);
    LacksEach(Run4, sync);
    LacksConcat(Run1 + Run2 + Run3, Run4, sync);
    LacksEach(Run5, sync);
    LacksConcat(Run1 + Run2 + Run3 + Run4, Run5, sync);
  }

  /** The first 36 entries of the table lack the opcode of CMD_SYNC. */
  lemma SyncLacking2()
    ensures Lacks(Run1 + Run2 + Run3 + Run4 + Run5 + Run6 + Run7 + Run8 + Run9, Eve.CMD_SYNC as int)
  {
    var sync := Eve.CMD_SYNC as int;
    SyncLacking1();
    LacksEach(Run6, sync);
    LacksConcat(Run1 + Run2 + Run3 + Run4 + Run5, Run6, sync);
    LacksEach(Run7, sync);
    LacksConcat(Run1 + Run2 + Run3 + Run4 + Run5 + Run6, Run7, sync);
    LacksEach(Run8, sync);
    LacksConcat(Run1 + Run2 + Run3 + Run4 + Run5 + Run6 + Run7, Run8, sync);
    LacksEach(Run9, sync);
    LacksConcat(Run1 + Run2 + Run3 + Run4 + Run5 + Run6 + Run7 + Run8, Run9, sync);
  }

  /** The first 52 entries of the table lack the opcode of CMD_SYNC. */
  lemma SyncLacking3()
    ensures Lacks(Run1 + Run2 + Run3 + Run4 + Run5 + Run6 + Run7 + Run8 + Run9 + Run10 + Run11 + Run12 + Run13, Eve.CMD_SYNC as int)
  {
    var sync := Eve.CMD_SYNC as int;
    SyncLacking2();
    LacksEach(Run10, sync);
    LacksConcat(Run1 + Run2 + Run3 + Run4 + Run5 + Run6 + Run7 + Run8 + Run9, Run10, sync);
    LacksEach(Run11, sync);
    LacksConcat(Run1 + Run2 + Run3 + Run4 + Run5 + Run6 + Run7 + Run8 + Run9 + Run10, Run11, sync);
    LacksEach(Run12, sync);
    LacksConcat(Run1 + Run2 + Run3 + Run4 + Run5 + Run6 + Run7 + Run8 + Run9 + Run10 + Run11, Run12, sync);
    LacksEach(Run13, sync);
    LacksConcat(Run1 + Run2 + Run3 + Run4 + Run5 + Run6 + Run7 + Run8 + Run9 + Run10 + Run11 + Run12, Run13, sync);
  }

  /** All 57 entries of the table lack the opcode of CMD_SYNC. */
  lemma SyncLacking4()
    ensures Lacks(Run1 + Run2 + Run3 + Run4 + Run5 + Run6 + Run7 + Run8 + Run9 + Run10 + Run11 + Run12 + Run13 + Run14 + Run15, Eve.CMD_SYNC as int)
  {
    var sync := Eve.CMD_SYNC as int;
    SyncLacking3();
    LacksEach(Run14, sync);
    LacksConcat(Run1 + Run2 + Run3 + Run4 + Run5 + Run6 + Run7 + Run8 + Run9 + Run10 + Run11 + Run12 + Run13, Run14, sync);
    LacksEach(Run15, sync);
    LacksConcat(Run1 + Run2 + Run3 + Run4 + Run5 + Run6 + Run7 + Run8 + Run9 + Run10 + Run11 + Run12 + Run13 + Run14, Run15, sync);
  }

  // ------------------------------------------------------------ get_command

  /**
   * `next(cmd for cmd in cs if cmd.code == code)`: the first command with
   * that opcode; `None` where Python raises `StopIteration`.
   */
  function Find(cs: seq<Command>, code: nat): (r: Option<Command>)
    ensures r.Some? ==> r.value in cs && r.value.code == code
    ensures r.Some? ==> exists i :: 0 <= i < |cs| && cs[i] == r.value && forall j :: 0 <= j < i ==> cs[j].code != code
    ensures r.None? <==> forall c :: c in cs ==> c.code != code
  {
    if cs == [] then None
    else if cs[0].code == code then Some(cs[0])
    else
      var r := Find(cs[1..], code);
      assert r.Some? ==> exists i :: 0 <= i < |cs[1..]| && cs[1..][i] == r.value && forall j :: 0 <= j < i ==> cs[1..][j].code != code;
      assert forall c :: c in cs ==> c == cs[0] || c in cs[1..];
      r
  }

  datatype Table = DisplayList | Coprocessor

  /**
   * The table and opcode `get_command(word)` looks up: a word whose top 24
   * bits are all set is a co-processor command with the opcode in its low
   * byte; any other word is a display-list command with the opcode in its
   * top byte, of which only bits 6 and 7 count when either is set.
   */
  function Select(word: nat): (s: (Table, nat))
    ensures s.0 == Coprocessor <==> word / 256 == 0xFF_FFFF
  {
    if word / 256 == 0xFF_FFFF then (Coprocessor, And(word, 0xFF))
    else
      var code := word / 0x100_0000;
      (DisplayList, if And(code, 0xC0) != 0 then And(code, 0xC0) else code)
  }

  function Commands(t: Table): seq<Command>
  {
    if t == Coprocessor then CoprocessorCommands else DisplayListCommands
  }

  /** `get_command(word)`. */
  function GetCommand(word: nat): (r: Option<Command>)
    ensures r.Some? ==> r.value in Commands(Select(word).0) && r.value.code == Select(word).1
    ensures r.None? <==> forall c :: c in Commands(Select(word).0) ==> c.code != Select(word).1
  {
    Find(Commands(Select(word).0), Select(word).1)
  }

  /**
   * What `get_command` looks up, in arithmetic: the low byte of a
   * co-processor word; the top byte of a display-list word below 64; and for
   * a top byte from 64 up, its two high bits alone (the opcodes 0x40, 0x80
   * and 0xC0 of commands whose fields reach into the top byte).
   */
  lemma {:induction false} SelectOpcode(word: nat)
    ensures word / 256 == 0xFF_FFFF ==> Select(word) == (Coprocessor, word % 256)
    ensures word / 256 != 0xFF_FFFF && word / 0x100_0000 < 64 ==> Select(word) == (DisplayList, word / 0x100_0000)
    ensures word / 256 != 0xFF_FFFF && 64 <= word / 0x100_0000 < 256 ==> Select(word) == (DisplayList, word / 0x4000_0000 * 64)
  {
    AndLowMask(word, 8);
    assert Pow2(8) == 256;
    var code := word / 0x100_0000;
    AndTopTwo(code);
    DivDiv(word, 0x100_0000, 64);
    if 64 <= code < 256 {
      assert (code / 64) % 4 == code / 64;
    }
  }

  /** A display-list command whose words `get_command` reads back to its opcode: its fields stay out of the bits that select it. */
  predicate Decodable(cmd: Command)
  {
    (cmd.code < 64 && TotalBits(cmd.params) <= 24)
    || ((cmd.code == 0x40 || cmd.code == 0x80) && TotalBits(cmd.params) <= 30)
  }

  /** The header `CpCmd.pack` writes is `0xffffff00 + code`, and `get_command` maps it back to the first co-processor command with that code. */
  lemma {:induction false} CpHeaderDecodes(code: nat)
    requires code < 256
    ensures StructPack(U32, Or(0xFFFF_FF00, code)) == Ok(CpHeader(code))
    ensures FromLe(CpHeader(code)) == HeaderWord(code)
    ensures GetCommand(0xFFFF_FF00 + code) == Find(CoprocessorCommands, code)
  {
    CpHeaderBytes(code);
    CpHeaderSelects(code);
  }

  /** The header of any co-processor command finds a command. */
  lemma {:induction false} CpHeaderFound(cmd: Command)
    requires cmd in CoprocessorCommands && cmd.code < 256
    ensures GetCommand(0xFFFF_FF00 + cmd.code).Some?
  {
    CpHeaderDecodes(cmd.code);
    FindPresent(CoprocessorCommands, cmd);
  }

  /** A header word selects the co-processor table, with its low byte as the opcode. */
  lemma {:induction false} CpHeaderSelects(code: nat)
    requires code < 256
    ensures Select(0xFFFF_FF00 + code) == (Coprocessor, code)
  {
    SplitAt(code, 256, 0xFF_FFFF);
    SelectOpcode(0xFFFF_FF00 + code);
  }

  /** `Find` succeeds for the code of any command in the table. */
  lemma {:induction false} FindPresent(cs: seq<Command>, c: Command)
    requires c in cs
    ensures Find(cs, c.code).Some?
  {
  }

  /**
   * A word `DlCmd.pack` produces for in-range arguments decodes, through
   * `get_command`, to the first display-list command with the packer's
   * opcode, for every command whose fields leave the selecting bits alone.
   */
  lemma {:induction false} DlWordDecodes(cmd: Command, args: seq<int>)
    requires Packable(cmd) && Decodable(cmd) && InRange(cmd.params, Reverse(args))
    ensures DlPackSpec(cmd, args).Ok?
    ensures GetCommand(FromLe(DlPackSpec(cmd, args).value)) == Find(DisplayListCommands, cmd.code)
    ensures cmd in DisplayListCommands ==> GetCommand(FromLe(DlPackSpec(cmd, args).value)).Some?
  {
    var v := Compose(cmd.params, Reverse(args));
    var n := cmd.code * 0x100_0000 + v;
    DlPackWord(cmd, args, n);
    ComposeBound(cmd.params, Reverse(args));
    OpcodeOr(cmd, v);
    WordValue(n);
    WordSelects(cmd, v, n);
  }

  /** Reading back the 4 bytes of a 32-bit word. */
  lemma {:induction false} WordValue(n: int)
    requires 0 <= n < 0x1_0000_0000
    ensures FromLe(LeBytes(n, 4)) == n
  {
    Pow2Values();
    LeBytesDecode(n, 4);
    DivModUnique(n, Pow2(32), 0, n);
  }

  lemma {:induction false} WordSelects(cmd: Command, v: int, n: nat)
    requires Decodable(cmd) && 0 <= v < Pow2(TotalBits(cmd.params)) && n == cmd.code * 0x100_0000 + v
    ensures Select(n) == (DisplayList, cmd.code)
  {
    SelectOpcode(n);
    if cmd.code < 64 {
      Pow2Monotone(TotalBits(cmd.params), 24);
      Pow2Values();
      LowOpcodeWord(cmd.code, v, n);
    } else {
      Pow2Monotone(TotalBits(cmd.params), 30);
      assert Pow2(30) == 0x4000_0000 by {
        Pow2Values();
        Pow2Add(24, 6);
      }
      HighOpcodeWord(cmd.code, v, n);
    }
  }

  /** An opcode below 64 over 24 bits of fields: the top byte is the opcode, and the word is no header. */
  lemma {:induction false} LowOpcodeWord(code: nat, v: int, n: nat)
    requires code < 64 && 0 <= v < 0x100_0000 && n == code * 0x100_0000 + v
    ensures n / 256 != 0xFF_FFFF && n / 0x100_0000 == code
  {
    SplitAt(v, 0x100_0000, code);
    DivBelow(n, 256, 0xFF_FFFF);
  }

  /** The opcode 0x40 or 0x80 over 30 bits of fields: the two high bits are the opcode, and the word is no header. */
  lemma {:induction false} HighOpcodeWord(code: nat, v: int, n: nat)
    requires (code == 0x40 || code == 0x80) && 0 <= v < 0x4000_0000 && n == code * 0x100_0000 + v
    ensures n / 256 != 0xFF_FFFF && 64 <= n / 0x100_0000 < 256 && n / 0x4000_0000 * 64 == code
  {
    SplitAt(v, 0x4000_0000, code / 64);
    DivDiv(n, 0x100_0000, 64);
    DivBelow(n, 0x100_0000, 256);
    DivBelow(n, 256, 0xFF_FFFF);
    assert 64 <= n / 0x100_0000 by {
      DivModUnique(n, 0x100_0000, n / 0x100_0000, n % 0x100_0000);
    }
  }

  lemma {:induction false} DivBelow(n: nat, d: int, k: int)
    requires d > 0 && n < k * d
    ensures n / d < k
  {
    DivModUnique(n, d, n / d, n % d);
    if n / d >= k {
      MulLe(d, k, n / d);
    }
  }

  // ------------------------------------------------------------- initialise

  /**
   * `initialise()`: every co-processor command's parameters get their
   * offsets, laid out from byte 4 (after the header word). The table is
   * changed in place; nothing but the offsets changes.
   */
  method Initialise(table: array<Command>)
    modifies table
    ensures forall i :: 0 <= i < table.Length ==>
      table[i] == old(table[i]).(params := Initialised(old(table[i]).params, 4))
  {
    var k := 0;
    while k < table.Length
      invariant 0 <= k <= table.Length
      invariant forall i :: 0 <= i < k ==> table[i] == old(table[i]).(params := Initialised(old(table[i]).params, 4))
      invariant forall i :: k <= i < table.Length ==> table[i] == old(table[i])
    {
      var laid := LayOut(table[k].params);
      table[k] := table[k].(params := laid);
      k := k + 1;
    }
  }

  // ------------------------------------------- layouts against command_defs.h

  /** `cmd` as `initialise` leaves it. */
  function Loaded(cmd: Command): (r: Command)
    ensures r.code == cmd.code && r.name == cmd.name && |r.params| == |cmd.params|
    ensures forall i :: 0 <= i < |cmd.params| ==> r.params[i].name == cmd.params[i].name && r.params[i].offset.Some?
  {
    InitialisedLayout(cmd.params, 4);
    cmd.(params := Initialised(cmd.params, 4))
  }

  /** The byte offset of each parameter. */
  function Offsets(ps: seq<Param>): (r: seq<nat>)
    ensures |r| == |ps|
    ensures forall i :: 0 <= i < |ps| && ps[i].offset.Some? ==> r[i] == ps[i].offset.value
  {
    seq(|ps|, i requires 0 <= i < |ps| => if ps[i].offset.Some? then ps[i].offset.value else 0)
  }

  /** The size in bytes of each parameter. */
  ghost function Sizes(ps: seq<Param>): (r: seq<nat>)
    ensures |r| == |ps| && forall i :: 0 <= i < |ps| ==> r[i] == Size(ps[i])
  {
    seq(|ps|, i requires 0 <= i < |ps| => Size(ps[i]))
  }

  /** `offs` are the offsets `initialise` gives parameters of the sizes `sizes` from byte `start`. */
  ghost predicate LaysOut(sizes: seq<nat>, start: nat, offs: seq<nat>)
    decreases |sizes|
  {
    |offs| == |sizes|
    && (sizes != [] ==>
      var off := Place(start, sizes[0]);
      offs[0] == off && LaysOut(sizes[1..], off + sizes[0], offs[1..]))
  }

  /** `LaysOut` is what `Initialised` computes. */
  lemma {:induction false} LaysOutOffsets(ps: seq<Param>, start: nat, offs: seq<nat>)
    requires LaysOut(Sizes(ps), start, offs)
    ensures Offsets(Initialised(ps, start)) == offs
    decreases |ps|
  {
    if ps != [] {
      var off, size := offs[0], Size(ps[0]);
      var next := off + size;
      LaysOutTail(ps, start, offs, off, size, next);
      LaysOutOffsets(ps[1..], next, offs[1..]);
      var q := ps[0].(offset := Some(off));
      calc {
        Offsets(Initialised(ps, start));
        { InitialisedUnfold(ps, start, size, off, next); }
        Offsets([q] + Initialised(ps[1..], next));
        { OffsetsCons(q, ps[1..], next); }
        [off] + Offsets(Initialised(ps[1..], next));
        [off] + offs[1..];
        offs;
      }
    }
  }

  /** The first step of `LaysOut` over the sizes of some parameters. */
  lemma {:induction false} LaysOutTail(ps: seq<Param>, start: nat, offs: seq<nat>, off: nat, size: nat, next: nat)
    requires ps != [] && LaysOut(Sizes(ps), start, offs)
    requires off == offs[0] && size == Size(ps[0]) && next == off + size
    ensures off == Place(start, size)
    ensures LaysOut(Sizes(ps[1..]), next, offs[1..])
  {
    assert Sizes(ps)[1..] == Sizes(ps[1..]);
  }

  /** Every parameter `initialise` has passed over has an offset. */
  lemma {:induction false} InitialisedSet(ps: seq<Param>, start: nat)
    ensures forall i :: 0 <= i < |ps| ==> Initialised(ps, start)[i].offset.Some?
  {
    InitialisedShape(ps, start);
  }

  /** The offsets of a parameter placed at `off` followed by parameters laid out by `initialise`. */
  lemma {:induction false} OffsetsCons(q: Param, ps: seq<Param>, start: nat)
    requires q.offset.Some?
    ensures Offsets([q] + Initialised(ps, start)) == [q.offset.value] + Offsets(Initialised(ps, start))
  {
    var tail := Initialised(ps, start);
    InitialisedSet(ps, start);
    var qs := [q] + tail;
    assert forall i :: 0 < i < |qs| ==> qs[i] == tail[i - 1];
  }

  /** One step of `LaysOut`, with the first offset known. */
  lemma {:induction false} LaysOutCons(sizes: seq<nat>, start: nat, off: nat, offs: seq<nat>)
    requires sizes != []
    requires Place(start, sizes[0]) == off
    requires LaysOut(sizes[1..], off + sizes[0], offs)
    ensures LaysOut(sizes, start, [off] + offs)
  {
    assert ([off] + offs)[1..] == offs;
  }

  /** `initialise` on sizes 2, 2, 2, 2, 0 from byte 4: the offsets 4, 6, 8, 10, 12. */
  lemma TextLaidOut()
    ensures LaysOut([2, 2, 2, 2, 0], 4, [4, 6, 8, 10, 12])
  {
    var sizes: seq<nat> := [2, 2, 2, 2, 0];
    LaysOutCons(sizes[4..], 12, 12, []);
    assert sizes[4..][1..] == sizes[5..];
    LaysOutCons(sizes[3..], 10, 10, [12]);
    assert sizes[3..][1..] == sizes[4..];
    LaysOutCons(sizes[2..], 8, 8, [10, 12]);
    assert sizes[2..][1..] == sizes[3..];
    LaysOutCons(sizes[1..], 6, 6, [8, 10, 12]);
    assert sizes[1..][1..] == sizes[2..];
    LaysOutCons(sizes[0..], 4, 4, [6, 8, 10, 12]);
    assert sizes[0..][1..] == sizes[1..];
    assert sizes[0..] == sizes;
  }

  /** The byte sizes of the TEXT parameters. */
  lemma TextSizes()
    ensures Sizes(CMD_TEXT.params) == [2, 2, 2, 2, 0]
  {
    var ps := CMD_TEXT.params;
    SizeClasses(ps[0]);
    SizeClasses(ps[1]);
    SizeClasses(ps[2]);
    SizeClasses(ps[3]);
    SizeClasses(ps[4]);
  }

  /** The offsets `initialise` gives the TEXT parameters. */
  lemma TextOffsets()
    ensures Offsets(Loaded(CMD_TEXT).params) == [4, 6, 8, 10, 12]
  {
    TextSizes();
    TextLaidOut();
    LaysOutOffsets(CMD_TEXT.params, 4, [4, 6, 8, 10, 12]);
  }

  /** TEXT: four 16-bit fields from byte 4 and the string at byte 12, the end of the 12-byte struct the string follows. */
  lemma TextLayout()
    ensures Offsets(Loaded(CMD_TEXT).params) == [4, 6, 8, 10, 12]
    ensures CpSize(Loaded(CMD_TEXT)) == Ok(12)
    ensures forall x, y, font, options :: |Coproc.Text(x, y, font, options)| == 12
  {
    TextOffsets();
    TextSizes();
    ShapeAt(CMD_TEXT.params, 4, 4);
    assert Align(12, 4) == 12;
  }

  /** `initialise` on sizes 2, 4 from byte 4: the offsets 4, 8. */
  lemma SetfontLaidOut()
    ensures LaysOut([2, 4], 4, [4, 8])
  {
    var sizes: seq<nat> := [2, 4];
    LaysOutCons(sizes[1..], 6, 8, []);
    assert sizes[1..][1..] == sizes[2..];
    LaysOutCons(sizes[0..], 4, 4, [8]);
    assert sizes[0..][1..] == sizes[1..];
    assert sizes[0..] == sizes;
  }

  /** The byte sizes of the SETFONT parameters. */
  lemma SetfontSizes()
    ensures Sizes(CMD_SETFONT.params) == [2, 4]
  {
    var ps := CMD_SETFONT.params;
    SizeClasses(ps[0]);
    SizeClasses(ps[1]);
  }

  /** The offsets `initialise` gives the SETFONT parameters. */
  lemma SetfontOffsets()
    ensures Offsets(Loaded(CMD_SETFONT).params) == [4, 8]
  {
    SetfontSizes();
    SetfontLaidOut();
    LaysOutOffsets(CMD_SETFONT.params, 4, [4, 8]);
  }

  /** SETFONT: the font takes a 16-bit slot at byte 4, padded so the 32-bit address sits at byte 8. */
  lemma SetfontLayout()
    ensures Offsets(Loaded(CMD_SETFONT).params) == [4, 8]
    ensures CpSize(Loaded(CMD_SETFONT)) == Ok(12)
    ensures forall font, ptr :: |Coproc.Setfont(font, ptr)| == 12
  {
    SetfontOffsets();
    SetfontSizes();
    ShapeAt(CMD_SETFONT.params, 4, 1);
    assert Align(12, 4) == 12;
  }

  /** `initialise` on sizes 4, 2, 4 from byte 4: the offsets 4, 8, 12. */
  lemma MemsetLaidOut()
    ensures LaysOut([4, 2, 4], 4, [4, 8, 12])
  {
    var sizes: seq<nat> := [4, 2, 4];
    LaysOutCons(sizes[2..], 10, 12, []);
    assert sizes[2..][1..] == sizes[3..];
    LaysOutCons(sizes[1..], 8, 8, [12]);
    assert sizes[1..][1..] == sizes[2..];
    LaysOutCons(sizes[0..], 4, 4, [8, 12]);
    assert sizes[0..][1..] == sizes[1..];
    assert sizes[0..] == sizes;
  }

  /** The byte sizes of the MEMSET parameters. */
  lemma MemsetSizes()
    ensures Sizes(CMD_MEMSET.params) == [4, 2, 4]
  {
    var ps := CMD_MEMSET.params;
    SizeClasses(ps[0]);
    SizeClasses(ps[1]);
    SizeClasses(ps[2]);
  }

  /** The offsets `initialise` gives the MEMSET parameters. */
  lemma MemsetOffsets()
    ensures Offsets(Loaded(CMD_MEMSET).params) == [4, 8, 12]
  {
    MemsetSizes();
    MemsetLaidOut();
    LaysOutOffsets(CMD_MEMSET.params, 4, [4, 8, 12]);
  }

  /** MEMSET: the byte value takes a 16-bit slot at byte 8, padded so the count sits at byte 12. */
  lemma MemsetLayout()
    ensures Offsets(Loaded(CMD_MEMSET).params) == [4, 8, 12]
    ensures CpSize(Loaded(CMD_MEMSET)) == Ok(16)
    ensures forall ptr, value, num :: |Coproc.Memset(ptr, value, num)| == 16
  {
    MemsetOffsets();
    MemsetSizes();
    ShapeAt(CMD_MEMSET.params, 4, 2);
    assert Align(16, 4) == 16;
  }

  /** `initialise` on sizes 2, 2, 2, 2, 4 from byte 4: the offsets 4, 6, 8, 10, 12. */
  lemma NumberLaidOut()
    ensures LaysOut([2, 2, 2, 2, 4], 4, [4, 6, 8, 10, 12])
  {
    var sizes: seq<nat> := [2, 2, 2, 2, 4];
    LaysOutCons(sizes[4..], 12, 12, []);
    assert sizes[4..][1..] == sizes[5..];
    LaysOutCons(sizes[3..], 10, 10, [12]);
    assert sizes[3..][1..] == sizes[4..];
    LaysOutCons(sizes[2..], 8, 8, [10, 12]);
    assert sizes[2..][1..] == sizes[3..];
    LaysOutCons(sizes[1..], 6, 6, [8, 10, 12]);
    assert sizes[1..][1..] == sizes[2..];
    LaysOutCons(sizes[0..], 4, 4, [6, 8, 10, 12]);
    assert sizes[0..][1..] == sizes[1..];
    assert sizes[0..] == sizes;
  }

  /** The byte sizes of the NUMBER parameters. */
  lemma NumberSizes()
    ensures Sizes(CMD_NUMBER.params) == [2, 2, 2, 2, 4]
  {
    var ps := CMD_NUMBER.params;
    SizeClasses(ps[0]);
    SizeClasses(ps[1]);
    SizeClasses(ps[2]);
    SizeClasses(ps[3]);
    SizeClasses(ps[4]);
  }

  /** The offsets `initialise` gives the NUMBER parameters. */
  lemma NumberOffsets()
    ensures Offsets(Loaded(CMD_NUMBER).params) == [4, 6, 8, 10, 12]
  {
    NumberSizes();
    NumberLaidOut();
    LaysOutOffsets(CMD_NUMBER.params, 4, [4, 6, 8, 10, 12]);
  }

  /** NUMBER: four 16-bit fields, then the 32-bit number at byte 12. */
  lemma NumberLayout()
    ensures Offsets(Loaded(CMD_NUMBER).params) == [4, 6, 8, 10, 12]
    ensures CpSize(Loaded(CMD_NUMBER)) == Ok(16)
    ensures forall x, y, font, options, n :: |Coproc.Number(x, y, font, options, n)| == 16
  {
    NumberOffsets();
    NumberSizes();
    ShapeAt(CMD_NUMBER.params, 4, 4);
    assert Align(16, 4) == 16;
  }

  /** `initialise` on sizes 2, 2, 4, 2, 2, 4 from byte 4: the offsets 4, 6, 8, 12, 14, 16. */
  lemma GradientaLaidOut()
    ensures LaysOut([2, 2, 4, 2, 2, 4], 4, [4, 6, 8, 12, 14, 16])
  {
    var sizes: seq<nat> := [2, 2, 4, 2, 2, 4];
    LaysOutCons(sizes[5..], 16, 16, []);
    assert sizes[5..][1..] == sizes[6..];
    LaysOutCons(sizes[4..], 14, 14, [16]);
    assert sizes[4..][1..] == sizes[5..];
    LaysOutCons(sizes[3..], 12, 12, [14, 16]);
    assert sizes[3..][1..] == sizes[4..];
    LaysOutCons(sizes[2..], 8, 8, [12, 14, 16]);
    assert sizes[2..][1..] == sizes[3..];
    LaysOutCons(sizes[1..], 6, 6, [8, 12, 14, 16]);
    assert sizes[1..][1..] == sizes[2..];
    LaysOutCons(sizes[0..], 4, 4, [6, 8, 12, 14, 16]);
    assert sizes[0..][1..] == sizes[1..];
    assert sizes[0..] == sizes;
  }

  /** The byte sizes of the GRADIENTA parameters. */
  lemma GradientaSizes()
    ensures Sizes(CMD_GRADIENTA.params) == [2, 2, 4, 2, 2, 4]
  {
    var ps := CMD_GRADIENTA.params;
    SizeClasses(ps[0]);
    SizeClasses(ps[1]);
    SizeClasses(ps[2]);
    SizeClasses(ps[3]);
    SizeClasses(ps[4]);
    SizeClasses(ps[5]);
  }

  /** The offsets `initialise` gives the GRADIENTA parameters. */
  lemma GradientaOffsets()
    ensures Offsets(Loaded(CMD_GRADIENTA).params) == [4, 6, 8, 12, 14, 16]
  {
    GradientaSizes();
    GradientaLaidOut();
    LaysOutOffsets(CMD_GRADIENTA.params, 4, [4, 6, 8, 12, 14, 16]);
  }

  /** GRADIENTA: 16-bit coordinates and 32-bit colours alternate without padding. */
  lemma GradientaLayout()
    ensures Offsets(Loaded(CMD_GRADIENTA).params) == [4, 6, 8, 12, 14, 16]
    ensures CpSize(Loaded(CMD_GRADIENTA)) == Ok(20)
    ensures forall x0, y0, argb0, x1, y1, argb1 :: |Coproc.Gradienta(x0, y0, argb0, x1, y1, argb1)| == 20
  {
    GradientaOffsets();
    GradientaSizes();
    ShapeAt(CMD_GRADIENTA.params, 4, 5);
    assert Align(20, 4) == 20;
  }

  /** `initialise` on sizes 4, 2 from byte 4: the offsets 4, 8. */
  lemma RomfontLaidOut()
    ensures LaysOut([4, 2], 4, [4, 8])
  {
    var sizes: seq<nat> := [4, 2];
    LaysOutCons(sizes[1..], 8, 8, []);
    assert sizes[1..][1..] == sizes[2..];
    LaysOutCons(sizes[0..], 4, 4, [8]);
    assert sizes[0..][1..] == sizes[1..];
    assert sizes[0..] == sizes;
  }

  /** The byte sizes of the ROMFONT parameters. */
  lemma RomfontSizes()
    ensures Sizes(CMD_ROMFONT.params) == [4, 2]
  {
    var ps := CMD_ROMFONT.params;
    SizeClasses(ps[0]);
    SizeClasses(ps[1]);
  }

  /** The offsets `initialise` gives the ROMFONT parameters. */
  lemma RomfontOffsets()
    ensures Offsets(Loaded(CMD_ROMFONT).params) == [4, 8]
  {
    RomfontSizes();
    RomfontLaidOut();
    LaysOutOffsets(CMD_ROMFONT.params, 4, [4, 8]);
  }

  /** ROMFONT: the font is stored in 32 bits, so the ROM slot comes at byte 8 and is padded to 12 bytes. */
  lemma RomfontLayout()
    ensures Offsets(Loaded(CMD_ROMFONT).params) == [4, 8]
    ensures CpSize(Loaded(CMD_ROMFONT)) == Ok(12)
    ensures forall font, romslot :: |Coproc.Romfont(font, romslot)| == 12
  {
    RomfontOffsets();
    RomfontSizes();
    ShapeAt(CMD_ROMFONT.params, 4, 1);
    assert Align(10, 4) == 12;
  }

  /** `initialise` on sizes 2, 4, 2, 2, 2, 2 from byte 4: the offsets 4, 8, 12, 14, 16, 18. */
  lemma Snapshot2LaidOut()
    ensures LaysOut([2, 4, 2, 2, 2, 2], 4, [4, 8, 12, 14, 16, 18])
  {
    var sizes: seq<nat> := [2, 4, 2, 2, 2, 2];
    LaysOutCons(sizes[5..], 18, 18, []);
    assert sizes[5..][1..] == sizes[6..];
    LaysOutCons(sizes[4..], 16, 16, [18]);
    assert sizes[4..][1..] == sizes[5..];
    LaysOutCons(sizes[3..], 14, 14, [16, 18]);
    assert sizes[3..][1..] == sizes[4..];
    LaysOutCons(sizes[2..], 12, 12, [14, 16, 18]);
    assert sizes[2..][1..] == sizes[3..];
    LaysOutCons(sizes[1..], 6, 8, [12, 14, 16, 18]);
    assert sizes[1..][1..] == sizes[2..];
    LaysOutCons(sizes[0..], 4, 4, [8, 12, 14, 16, 18]);
    assert sizes[0..][1..] == sizes[1..];
    assert sizes[0..] == sizes;
  }

  /** The byte sizes of the SNAPSHOT2 parameters. */
  lemma Snapshot2Sizes()
    ensures Sizes(CMD_SNAPSHOT2.params) == [2, 4, 2, 2, 2, 2]
  {
    var ps := CMD_SNAPSHOT2.params;
    SizeClasses(ps[0]);
    SizeClasses(ps[1]);
    SizeClasses(ps[2]);
    SizeClasses(ps[3]);
    SizeClasses(ps[4]);
    SizeClasses(ps[5]);
  }

  /** The offsets `initialise` gives the SNAPSHOT2 parameters. */
  lemma Snapshot2Offsets()
    ensures Offsets(Loaded(CMD_SNAPSHOT2).params) == [4, 8, 12, 14, 16, 18]
  {
    Snapshot2Sizes();
    Snapshot2LaidOut();
    LaysOutOffsets(CMD_SNAPSHOT2.params, 4, [4, 8, 12, 14, 16, 18]);
  }

  /** SNAPSHOT2: the 16-bit format at byte 4 is padded so the address sits at byte 8, then four 16-bit fields. */
  lemma Snapshot2Layout()
    ensures Offsets(Loaded(CMD_SNAPSHOT2).params) == [4, 8, 12, 14, 16, 18]
    ensures CpSize(Loaded(CMD_SNAPSHOT2)) == Ok(20)
    ensures forall fmt, ptr, x, y, w, h :: |Coproc.Snapshot2(fmt, ptr, x, y, w, h)| == 20
  {
    Snapshot2Offsets();
    Snapshot2Sizes();
    ShapeAt(CMD_SNAPSHOT2.params, 4, 5);
    assert Align(20, 4) == 20;
  }

  /** `initialise` on sizes 4, 2, 2, 2 from byte 4: the offsets 4, 8, 10, 12. */
  lemma SetbitmapLaidOut()
    ensures LaysOut([4, 2, 2, 2], 4, [4, 8, 10, 12])
  {
    var sizes: seq<nat> := [4, 2, 2, 2];
    LaysOutCons(sizes[3..], 12, 12, []);
    assert sizes[3..][1..] == sizes[4..];
    LaysOutCons(sizes[2..], 10, 10, [12]);
    assert sizes[2..][1..] == sizes[3..];
    LaysOutCons(sizes[1..], 8, 8, [10, 12]);
    assert sizes[1..][1..] == sizes[2..];
    LaysOutCons(sizes[0..], 4, 4, [8, 10, 12]);
    assert sizes[0..][1..] == sizes[1..];
    assert sizes[0..] == sizes;
  }

  /** The byte sizes of the SETBITMAP parameters. */
  lemma SetbitmapSizes()
    ensures Sizes(CMD_SETBITMAP.params) == [4, 2, 2, 2]
  {
    var ps := CMD_SETBITMAP.params;
    SizeClasses(ps[0]);
    SizeClasses(ps[1]);
    SizeClasses(ps[2]);
    SizeClasses(ps[3]);
  }

  /** The offsets `initialise` gives the SETBITMAP parameters. */
  lemma SetbitmapOffsets()
    ensures Offsets(Loaded(CMD_SETBITMAP).params) == [4, 8, 10, 12]
  {
    SetbitmapSizes();
    SetbitmapLaidOut();
    LaysOutOffsets(CMD_SETBITMAP.params, 4, [4, 8, 10, 12]);
  }

  /** SETBITMAP: the address, then three 16-bit fields, padded to 16 bytes. */
  lemma SetbitmapLayout()
    ensures Offsets(Loaded(CMD_SETBITMAP).params) == [4, 8, 10, 12]
    ensures CpSize(Loaded(CMD_SETBITMAP)) == Ok(16)
    ensures forall source, fmt, width, height :: |Coproc.Setbitmap(source, fmt, width, height)| == 16
  {
    SetbitmapOffsets();
    SetbitmapSizes();
    ShapeAt(CMD_SETBITMAP.params, 4, 3);
    assert Align(14, 4) == 16;
  }
  /** The first entries of both tables, looked up by their words. */
  lemma GetCommandExamples()
    ensures GetCommand(0xFFFF_FF00) == Some(CMD_DLSTART)
    ensures GetCommand(0xFFFF_FF01) == Some(CMD_SWAP)
    ensures GetCommand(0) == Some(DL_DISPLAY)
  {
    DlstartFirst(0xFFFF_FF00);
    SwapSecond();
    DisplayFirst();
  }

  lemma DlstartFirst(word: nat)
    requires word == 0xFFFF_FF00
    ensures GetCommand(word) == Some(CMD_DLSTART)
  {
    CpHeaderSelects(0);
    assert Select(word) == (Coprocessor, 0);
    assert GetCommand(word) == Find(CoprocessorCommands, 0);
    DlstartFound();
  }

  lemma DlstartFound()
    ensures Find(CoprocessorCommands, 0) == Some(CMD_DLSTART)
  {
    FindFirst(CoprocessorCommands, 0);
  }

  lemma SwapSecond()
    ensures GetCommand(0xFFFF_FF01) == Some(CMD_SWAP)
  {
    CpHeaderSelects(1);
    SwapFound();
  }

  lemma SwapFound()
    ensures Find(CoprocessorCommands, 1) == Some(CMD_SWAP)
  {
    FindSecond(CoprocessorCommands, 1);
  }

  lemma DisplayFirst()
    ensures GetCommand(0) == Some(DL_DISPLAY)
  {
    SelectOpcode(0);
    FindFirst(DisplayListCommands, 0);
  }

  lemma {:induction false} FindSecond(cs: seq<Command>, code: nat)
    requires |cs| >= 2 && cs[0].code != code && cs[1].code == code
    ensures Find(cs, code) == Some(cs[1])
  {
    FindFirst(cs, code);
    assert cs[1..][0] == cs[1];
    FindFirst(cs[1..], code);
  }

  lemma {:induction false} FindFirst(cs: seq<Command>, code: nat)
    requires cs != []
    ensures cs[0].code == code ==> Find(cs, code) == Some(cs[0])
    ensures cs[0].code != code ==> Find(cs, code) == Find(cs[1..], code)
  {
  }
}
