# EVE graphics driver: a Dafny model

This project models the core of a driver for Bridgetek EVE display
controllers (FT8xx / BT81x), as the repository's C++ library and its Python
tool implement it:

- **Display-list words and co-processor commands.** `EVE.h` builds each display-list
  instruction as an inline function returning a 32-bit word. `command_defs.h`
  builds the same words as `CommandBuffer` methods, along with the co-processor commands: a
  `0xffffffNN` header word, then packed little-endian fields, then optional string or data
  bytes padded to a multiple of 4. In the model these are `EveInline` (the
  `EVE.h` functions), `DisplayList` (the `command_defs.h` word builders),
  `Coproc` (the byte images of the co-processor commands) and `Eve`
  (the constants and `MAKE_CMD_WORD` / `MAKE_COPROC_CMD_WORD`).
- **The command buffer** (`CommandBuffer.h`) is a 4096-byte array with a
  fill level. `CommandBuffers.CommandBuffer` is a class over an `array<byte>`
  whose contents are specified by the function `Contents()`.
- **The feeders.** `AudioFifo` plays a circular window of device memory and
  tops it up from a byte source. `MediaFifo` streams a source into the
  co-processor's media FIFO with two alternating chunk buffers. These are
  `AudioFeed.AudioFifo` and `MediaFeed.MediaFifo`. The proofs cover their
  window arithmetic, the writes they issue and the register updates.
- **The surface** (`Surface.h`, `Surface.cpp`) appends display-list words and
  caches the primitive, colour and point size, so that a state command is
  sent only when the state changes. `Surfaces` models the surface;
  `DisplayState` gives the device's reading of the words (`Step`, `Run`)
  and the cache's meaning (`CacheCoherent`). It proves that the cache stays coherent with the
  device state under every operation, and that it does not after `reset`
  (see Findings).
- **The Python tool** `tools/eve.py` describes every command with typed
  parameters. It packs and unpacks display-list words and co-processor
  commands, and lays out co-processor parameters. `PyBits` spells out
  Python's unbounded `<<`, `>>`, `&` and `|`. `EveTool` models `Type`,
  `Param`, `DlCmd`, `CpCmd`, `align` and `initialise`, with Python's
  exceptions as `Result` errors. `Param.pack` and `CpCmd.pack` are modelled
  twice, selected by a `Packer`: `AsWritten` follows eve.py, and `Corrected`
  packs signed 2-byte parameters with `'<h'` (see Findings). `EveCommands` holds the two command tables
  and `get_command`, and proves the layouts against the C structures of
  `command_defs.h`.

Device I/O is a log of transfers on `Transport.EveDisplay`: a register write
or a block write. A byte source is `Transport.Stream`, whose remaining data
`ReadBytes` consumes; like a stream that times out, it may deliver fewer
bytes than remain, and a read of 0 is how it reports exhaustion or an error.

## Model

| member | source | states |
|---|---|---|
| DisplayList.AlphaFunc | src/include/Graphics/EVE/command_defs.h:7-18 | the word `alpha_func` stores: opcode 0x09 (DL_ALPHA_FUNC) in bits 24-31; bits 0-7 hold ref; bits 8-11 hold the low 4 bits of func; bits 12-23 hold zero |
| DisplayList.Begin | src/include/Graphics/EVE/command_defs.h:20-30 | the word `begin` stores: opcode 0x1F (DL_BEGIN) in bits 24-31; bits 0-3 hold the low 4 bits of prim; bits 4-23 hold zero |
| DisplayList.BitmapHandle | src/include/Graphics/EVE/command_defs.h:32-42 | the word `bitmap_handle` stores: opcode 0x05 (DL_BITMAP_HANDLE) in bits 24-31; bits 0-4 hold the low 5 bits of handle; bits 5-23 hold zero |
| DisplayList.BitmapLayout | src/include/Graphics/EVE/command_defs.h:44-55 | the word `bitmap_layout` stores: opcode 0x07 (DL_BITMAP_LAYOUT) in bits 24-31; bits 0-8 hold the low 9 bits of height; bits 9-18 hold the low 10 bits of linestride; bits 19-23 hold the low 5 bits of format |
| DisplayList.BitmapLayoutH | src/include/Graphics/EVE/command_defs.h:57-68 | the word `bitmap_layout_h` stores: opcode 0x28 (DL_BITMAP_LAYOUT_H) in bits 24-31; bits 0-1 hold the low 2 bits of height; bits 2-3 hold the low 2 bits of linestride; bits 4-23 hold zero |
| DisplayList.BitmapSize | src/include/Graphics/EVE/command_defs.h:70-84 | the word `bitmap_size` stores: opcode 0x08 (DL_BITMAP_SIZE) in bits 24-31; bits 0-8 hold the low 9 bits of height; bits 9-17 hold the low 9 bits of width; bit 18 holds bit 0 of wrapy; bit 19 holds bit 0 of wrapx; bit 20 holds bit 0 of filter; bits 21-23 hold zero |
| DisplayList.BitmapSizeH | src/include/Graphics/EVE/command_defs.h:86-97 | the word `bitmap_size_h` stores: opcode 0x29 (DL_BITMAP_SIZE_H) in bits 24-31; bits 0-1 hold the low 2 bits of height; bits 2-3 hold the low 2 bits of width; bits 4-23 hold zero |
| DisplayList.BitmapSource | src/include/Graphics/EVE/command_defs.h:99-109 | the word `bitmap_source` stores: opcode 0x01 (DL_BITMAP_SOURCE) in bits 24-31; bits 0-21 hold the low 22 bits of addr; bits 22-23 hold zero |
| DisplayList.BitmapTransformA | src/include/Graphics/EVE/command_defs.h:111-121 | the word `bitmap_transform_a` stores: opcode 0x15 (DL_BITMAP_TRANSFORM_A) in bits 24-31; bits 0-16 hold the low 17 bits of a; bits 17-23 hold zero |
| DisplayList.BitmapTransformB | src/include/Graphics/EVE/command_defs.h:123-133 | the word `bitmap_transform_b` stores: opcode 0x16 (DL_BITMAP_TRANSFORM_B) in bits 24-31; bits 0-16 hold the low 17 bits of b; bits 17-23 hold zero |
| DisplayList.BitmapTransformC | src/include/Graphics/EVE/command_defs.h:135-144 | the word `bitmap_transform_c` stores: opcode 0x17 (DL_BITMAP_TRANSFORM_C) in bits 24-31; bits 0-23 hold the low 24 bits of c |
| DisplayList.BitmapTransformD | src/include/Graphics/EVE/command_defs.h:146-156 | the word `bitmap_transform_d` stores: opcode 0x18 (DL_BITMAP_TRANSFORM_D) in bits 24-31; bits 0-16 hold the low 17 bits of d; bits 17-23 hold zero |
| DisplayList.BitmapTransformE | src/include/Graphics/EVE/command_defs.h:158-168 | the word `bitmap_transform_e` stores: opcode 0x19 (DL_BITMAP_TRANSFORM_E) in bits 24-31; bits 0-16 hold the low 17 bits of e; bits 17-23 hold zero |
| DisplayList.BitmapTransformF | src/include/Graphics/EVE/command_defs.h:170-179 | the word `bitmap_transform_f` stores: opcode 0x1A (DL_BITMAP_TRANSFORM_F) in bits 24-31; bits 0-23 hold the low 24 bits of f |
| DisplayList.BlendFunc | src/include/Graphics/EVE/command_defs.h:181-192 | the word `blend_func` stores: opcode 0x0B (DL_BLEND_FUNC) in bits 24-31; bits 0-2 hold the low 3 bits of dst; bits 3-5 hold the low 3 bits of src; bits 6-23 hold zero |
| DisplayList.Call | src/include/Graphics/EVE/command_defs.h:194-204 | the word `call` stores: opcode 0x1D (DL_CALL) in bits 24-31; bits 0-15 hold dest; bits 16-23 hold zero |
| DisplayList.Cell | src/include/Graphics/EVE/command_defs.h:206-216 | the word `cell` stores: opcode 0x06 (DL_CELL) in bits 24-31; bits 0-6 hold the low 7 bits of cell; bits 7-23 hold zero |
| DisplayList.Clear | src/include/Graphics/EVE/command_defs.h:218-230 | the word `clear` stores: opcode 0x26 (DL_CLEAR) in bits 24-31; bit 0 holds t; bit 1 holds s; bit 2 holds c; bits 3-23 hold zero |
| DisplayList.ClearColorA | src/include/Graphics/EVE/command_defs.h:232-242 | the word `clear_color_a` stores: opcode 0x0F (DL_CLEAR_COLOR_A) in bits 24-31; bits 0-7 hold alpha; bits 8-23 hold zero |
| DisplayList.ClearColorRgb | src/include/Graphics/EVE/command_defs.h:244-255 | the word `clear_color_rgb` stores: opcode 0x02 (DL_CLEAR_COLOR_RGB) in bits 24-31; bits 0-7 hold blue; bits 8-15 hold green; bits 16-23 hold red |
| DisplayList.ClearStencil | src/include/Graphics/EVE/command_defs.h:257-267 | the word `clear_stencil` stores: opcode 0x11 (DL_CLEAR_STENCIL) in bits 24-31; bits 0-7 hold s; bits 8-23 hold zero |
| DisplayList.ClearTag | src/include/Graphics/EVE/command_defs.h:269-279 | the word `clear_tag` stores: opcode 0x12 (DL_CLEAR_TAG) in bits 24-31; bits 0-7 hold tag; bits 8-23 hold zero |
| DisplayList.ColorA | src/include/Graphics/EVE/command_defs.h:281-291 | the word `color_a` stores: opcode 0x10 (DL_COLOR_A) in bits 24-31; bits 0-7 hold alpha; bits 8-23 hold zero |
| DisplayList.ColorMask | src/include/Graphics/EVE/command_defs.h:293-306 | the word `color_mask` stores: opcode 0x20 (DL_COLOR_MASK) in bits 24-31; bit 0 holds a; bit 1 holds b; bit 2 holds g; bit 3 holds r; bits 4-23 hold zero |
| DisplayList.ColorRgb | src/include/Graphics/EVE/command_defs.h:308-319 | the word `color_rgb` stores: opcode 0x04 (DL_COLOR_RGB) in bits 24-31; bits 0-7 hold blue; bits 8-15 hold green; bits 16-23 hold red |
| DisplayList.Display | src/include/Graphics/EVE/command_defs.h:321-330 | the word `display` stores: opcode 0x00 (DL_DISPLAY) in bits 24-31; bits 0-23 hold zero |
| DisplayList.End | src/include/Graphics/EVE/command_defs.h:332-341 | the word `end` stores: opcode 0x21 (DL_END) in bits 24-31; bits 0-23 hold zero |
| DisplayList.Jump | src/include/Graphics/EVE/command_defs.h:343-353 | the word `jump` stores: opcode 0x1E (DL_JUMP) in bits 24-31; bits 0-15 hold dest; bits 16-23 hold zero |
| DisplayList.LineWidth | src/include/Graphics/EVE/command_defs.h:355-365 | the word `line_width` stores: opcode 0x0E (DL_LINE_WIDTH) in bits 24-31; bits 0-11 hold the low 12 bits of width; bits 12-23 hold zero |
| DisplayList.Macro | src/include/Graphics/EVE/command_defs.h:367-377 | the word `macro` stores: opcode 0x25 (DL_MACRO) in bits 24-31; bit 0 holds bit 0 of m; bits 1-23 hold zero |
| DisplayList.Nop | src/include/Graphics/EVE/command_defs.h:379-388 | the word `nop` stores: opcode 0x2D (DL_NOP) in bits 24-31; bits 0-23 hold zero |
| DisplayList.PaletteSource | src/include/Graphics/EVE/command_defs.h:390-400 | the word `palette_source` stores: opcode 0x2A (DL_PALETTE_SOURCE) in bits 24-31; bits 0-21 hold the low 22 bits of addr; bits 22-23 hold zero |
| DisplayList.PointSize | src/include/Graphics/EVE/command_defs.h:402-412 | the word `point_size` stores: opcode 0x0D (DL_POINT_SIZE) in bits 24-31; bits 0-12 hold the low 13 bits of size; bits 13-23 hold zero |
| DisplayList.RestoreContext | src/include/Graphics/EVE/command_defs.h:414-423 | the word `restore_context` stores: opcode 0x23 (DL_RESTORE_CONTEXT) in bits 24-31; bits 0-23 hold zero |
| DisplayList.Return | src/include/Graphics/EVE/command_defs.h:425-434 | the word `return_` stores: opcode 0x24 (DL_RETURN) in bits 24-31; bits 0-23 hold zero |
| DisplayList.SaveContext | src/include/Graphics/EVE/command_defs.h:436-445 | the word `save_context` stores: opcode 0x22 (DL_SAVE_CONTEXT) in bits 24-31; bits 0-23 hold zero |
| DisplayList.ScissorSize | src/include/Graphics/EVE/command_defs.h:447-457 | the word `scissor_size` stores: opcode 0x1C (DL_SCISSOR_SIZE) in bits 24-31; bits 0-11 hold the low 12 bits of height; bits 12-23 hold the low 12 bits of width |
| DisplayList.ScissorXy | src/include/Graphics/EVE/command_defs.h:459-470 | the word `scissor_xy` stores: opcode 0x1B (DL_SCISSOR_XY) in bits 24-31; bits 0-10 hold the low 11 bits of y; bits 11-21 hold the low 11 bits of x; bits 22-23 hold zero |
| DisplayList.StencilFunc | src/include/Graphics/EVE/command_defs.h:472-484 | the word `stencil_func` stores: opcode 0x0A (DL_STENCIL_FUNC) in bits 24-31; bits 0-7 hold mask; bits 8-15 hold ref; bits 16-19 hold the low 4 bits of func; bits 20-23 hold zero |
| DisplayList.StencilMask | src/include/Graphics/EVE/command_defs.h:486-496 | the word `stencil_mask` stores: opcode 0x13 (DL_STENCIL_MASK) in bits 24-31; bits 0-7 hold mask; bits 8-23 hold zero |
| DisplayList.StencilOp | src/include/Graphics/EVE/command_defs.h:498-509 | the word `stencil_op` stores: opcode 0x0C (DL_STENCIL_OP) in bits 24-31; bits 0-2 hold the low 3 bits of spass; bits 3-5 hold the low 3 bits of sfail; bits 6-23 hold zero |
| DisplayList.Tag | src/include/Graphics/EVE/command_defs.h:511-521 | the word `tag` stores: opcode 0x03 (DL_TAG) in bits 24-31; bits 0-7 hold tag; bits 8-23 hold zero |
| DisplayList.TagMask | src/include/Graphics/EVE/command_defs.h:523-533 | the word `tag_mask` stores: opcode 0x14 (DL_TAG_MASK) in bits 24-31; bit 0 holds mask; bits 1-23 hold zero |
| DisplayList.Vertex2f | src/include/Graphics/EVE/command_defs.h:535-545 | the word `vertex2f` stores: 01 in bits 30-31; bits 0-14 hold the low 15 bits of y; bits 15-29 hold the low 15 bits of x |
| DisplayList.Vertex2ii | src/include/Graphics/EVE/command_defs.h:547-559 | the word `vertex2ii` stores: 10 in bits 30-31; bits 0-6 hold the low 7 bits of cell; bits 7-11 hold the low 5 bits of handle; bits 12-20 hold the low 9 bits of y; bits 21-29 hold the low 9 bits of x |
| DisplayList.VertexFormat | src/include/Graphics/EVE/command_defs.h:561-571 | the word `vertex_format` stores: opcode 0x27 (DL_VERTEX_FORMAT) in bits 24-31; bits 0-2 hold the low 3 bits of frac; bits 3-23 hold zero |
| DisplayList.VertexTranslateX | src/include/Graphics/EVE/command_defs.h:573-583 | the word `vertex_translate_x` stores: opcode 0x2B (DL_VERTEX_TRANSLATE_X) in bits 24-31; bits 0-16 hold the low 17 bits of x; bits 17-23 hold zero |
| DisplayList.VertexTranslateY | src/include/Graphics/EVE/command_defs.h:585-595 | the word `vertex_translate_y` stores: opcode 0x2C (DL_VERTEX_TRANSLATE_Y) in bits 24-31; bits 0-16 hold the low 17 bits of y; bits 17-23 hold zero |
| Coproc.StringImage | src/include/Graphics/EVE/CommandBuffer.h:22-38 | the characters, a NUL, then zero bytes: a multiple of 4 bytes, at most 4 more than the string and longer than it |
| Coproc.DataImage | src/include/Graphics/EVE/CommandBuffer.h:29-38 | raw data followed by fewer than 4 zero bytes, a multiple of 4 in all |
| Coproc.Append | src/include/Graphics/EVE/command_defs.h:598-608 | a 12-byte image: header word 0xffffff1e (CMD_APPEND), then ptr as 32 bits at byte 4, num as 32 bits at byte 8 |
| Coproc.Bgcolor | src/include/Graphics/EVE/command_defs.h:610-619 | an 8-byte image: header word 0xffffff09 (CMD_BGCOLOR), then color as 32 bits at byte 4 |
| Coproc.Button | src/include/Graphics/EVE/command_defs.h:621-636 | a 16-byte image: header word 0xffffff0d (CMD_BUTTON), then x as 16 bits at byte 4, y as 16 bits at byte 6, w as 16 bits at byte 8, h as 16 bits at byte 10, font as 16 bits at byte 12, options as 16 bits at byte 14 |
| Coproc.Calibrate | src/include/Graphics/EVE/command_defs.h:638-647 | an 8-byte image: header word 0xffffff15 (CMD_CALIBRATE), then result as 32 bits at byte 4 |
| Coproc.Clock | src/include/Graphics/EVE/command_defs.h:649-665 | a 20-byte image: header word 0xffffff14 (CMD_CLOCK), then x as 16 bits at byte 4, y as 16 bits at byte 6, r as 16 bits at byte 8, options as 16 bits at byte 10, h as 16 bits at byte 12, m as 16 bits at byte 14, s as 16 bits at byte 16, ms as 16 bits at byte 18 |
| Coproc.Coldstart | src/include/Graphics/EVE/command_defs.h:667-675 | a 4-byte image: header word 0xffffff32 (CMD_COLDSTART) |
| Coproc.Dial | src/include/Graphics/EVE/command_defs.h:677-690 | a 16-byte image: header word 0xffffff2d (CMD_DIAL), then x as 16 bits at byte 4, y as 16 bits at byte 6, r as 16 bits at byte 8, options as 16 bits at byte 10, value as 16 bits at byte 12, zero as 16 bits at byte 14 |
| Coproc.Dlstart | src/include/Graphics/EVE/command_defs.h:692-700 | a 4-byte image: header word 0xffffff00 (CMD_DLSTART) |
| Coproc.Fgcolor | src/include/Graphics/EVE/command_defs.h:702-711 | an 8-byte image: header word 0xffffff0a (CMD_FGCOLOR), then color as 32 bits at byte 4 |
| Coproc.Gauge | src/include/Graphics/EVE/command_defs.h:713-729 | a 20-byte image: header word 0xffffff13 (CMD_GAUGE), then x as 16 bits at byte 4, y as 16 bits at byte 6, r as 16 bits at byte 8, options as 16 bits at byte 10, major as 16 bits at byte 12, minor as 16 bits at byte 14, value as 16 bits at byte 16, range as 16 bits at byte 18 |
| Coproc.Getmatrix | src/include/Graphics/EVE/command_defs.h:731-745 | a 28-byte image: header word 0xffffff33 (CMD_GETMATRIX), then a as 32 bits at byte 4, b as 32 bits at byte 8, c as 32 bits at byte 12, d as 32 bits at byte 16, e as 32 bits at byte 20, f as 32 bits at byte 24 |
| Coproc.Getprops | src/include/Graphics/EVE/command_defs.h:747-758 | a 16-byte image: header word 0xffffff25 (CMD_GETPROPS), then ptr as 32 bits at byte 4, width as 32 bits at byte 8, height as 32 bits at byte 12 |
| Coproc.Getptr | src/include/Graphics/EVE/command_defs.h:760-769 | an 8-byte image: header word 0xffffff23 (CMD_GETPTR), then result as 32 bits at byte 4 |
| Coproc.Gradcolor | src/include/Graphics/EVE/command_defs.h:771-780 | an 8-byte image: header word 0xffffff34 (CMD_GRADCOLOR), then color as 32 bits at byte 4 |
| Coproc.Gradient | src/include/Graphics/EVE/command_defs.h:782-796 | a 20-byte image: header word 0xffffff0b (CMD_GRADIENT), then x0 as 16 bits at byte 4, y0 as 16 bits at byte 6, rgb0 as 32 bits at byte 8, x1 as 16 bits at byte 12, y1 as 16 bits at byte 14, rgb1 as 32 bits at byte 16 |
| Coproc.Gradienta | src/include/Graphics/EVE/command_defs.h:798-812 | a 20-byte image: header word 0xffffff57 (CMD_GRADIENTA), then x0 as 16 bits at byte 4, y0 as 16 bits at byte 6, argb0 as 32 bits at byte 8, x1 as 16 bits at byte 12, y1 as 16 bits at byte 14, argb1 as 32 bits at byte 16 |
| Coproc.Inflate | src/include/Graphics/EVE/command_defs.h:814-825 | an 8-byte image: header word 0xffffff22 (CMD_INFLATE), then ptr as 32 bits at byte 4 |
| Coproc.Interrupt | src/include/Graphics/EVE/command_defs.h:827-836 | an 8-byte image: header word 0xffffff02 (CMD_INTERRUPT), then ms as 32 bits at byte 4 |
| Coproc.Keys | src/include/Graphics/EVE/command_defs.h:838-853 | a 16-byte image: header word 0xffffff0e (CMD_KEYS), then x as 16 bits at byte 4, y as 16 bits at byte 6, w as 16 bits at byte 8, h as 16 bits at byte 10, font as 16 bits at byte 12, options as 16 bits at byte 14 |
| Coproc.Loadidentity | src/include/Graphics/EVE/command_defs.h:855-863 | a 4-byte image: header word 0xffffff26 (CMD_LOADIDENTITY) |
| Coproc.Loadimage | src/include/Graphics/EVE/command_defs.h:865-875 | a 12-byte image: header word 0xffffff24 (CMD_LOADIMAGE), then ptr as 32 bits at byte 4, options as 16 bits at byte 8, zero as 16 bits at byte 10 |
| Coproc.Logo | src/include/Graphics/EVE/command_defs.h:877-885 | a 4-byte image: header word 0xffffff31 (CMD_LOGO) |
| Coproc.Mediafifo | src/include/Graphics/EVE/command_defs.h:887-897 | a 12-byte image: header word 0xffffff39 (CMD_MEDIAFIFO), then ptr as 32 bits at byte 4, size as 32 bits at byte 8 |
| Coproc.Memcpy | src/include/Graphics/EVE/command_defs.h:899-910 | a 16-byte image: header word 0xffffff1d (CMD_MEMCPY), then dest as 32 bits at byte 4, src as 32 bits at byte 8, num as 32 bits at byte 12 |
| Coproc.Memcrc | src/include/Graphics/EVE/command_defs.h:912-923 | a 16-byte image: header word 0xffffff18 (CMD_MEMCRC), then ptr as 32 bits at byte 4, num as 32 bits at byte 8, result as 32 bits at byte 12 |
| Coproc.Memset | src/include/Graphics/EVE/command_defs.h:925-936 | a 16-byte image: header word 0xffffff1b (CMD_MEMSET), then ptr as 32 bits at byte 4, value as 16 bits at byte 8, zero as 16 bits at byte 10, num as 32 bits at byte 12 |
| Coproc.Memwrite | src/include/Graphics/EVE/command_defs.h:938-950 | a 12-byte image: header word 0xffffff1a (CMD_MEMWRITE), then ptr as 32 bits at byte 4, num as 32 bits at byte 8 |
| Coproc.Memzero | src/include/Graphics/EVE/command_defs.h:952-962 | a 12-byte image: header word 0xffffff1c (CMD_MEMZERO), then ptr as 32 bits at byte 4, num as 32 bits at byte 8 |
| Coproc.Number | src/include/Graphics/EVE/command_defs.h:964-977 | a 16-byte image: header word 0xffffff2e (CMD_NUMBER), then x as 16 bits at byte 4, y as 16 bits at byte 6, font as 16 bits at byte 8, options as 16 bits at byte 10, n as 32 bits at byte 12 |
| Coproc.Playvideo | src/include/Graphics/EVE/command_defs.h:979-988 | an 8-byte image: header word 0xffffff3a (CMD_PLAYVIDEO), then options as 16 bits at byte 4, zero as 16 bits at byte 6 |
| Coproc.Progress | src/include/Graphics/EVE/command_defs.h:990-1005 | a 20-byte image: header word 0xffffff0f (CMD_PROGRESS), then x as 16 bits at byte 4, y as 16 bits at byte 6, w as 16 bits at byte 8, h as 16 bits at byte 10, options as 16 bits at byte 12, value as 16 bits at byte 14, range as 16 bits at byte 16, zero as 16 bits at byte 18 |
| Coproc.Regread | src/include/Graphics/EVE/command_defs.h:1007-1017 | a 12-byte image: header word 0xffffff19 (CMD_REGREAD), then ptr as 32 bits at byte 4, result as 32 bits at byte 8 |
| Coproc.Romfont | src/include/Graphics/EVE/command_defs.h:1019-1029 | a 12-byte image: header word 0xffffff3f (CMD_ROMFONT), then font as 32 bits at byte 4, romslot as 16 bits at byte 8, zero as 16 bits at byte 10 |
| Coproc.Rotate | src/include/Graphics/EVE/command_defs.h:1031-1040 | an 8-byte image: header word 0xffffff29 (CMD_ROTATE), then a as 32 bits at byte 4 |
| Coproc.Scale | src/include/Graphics/EVE/command_defs.h:1042-1052 | a 12-byte image: header word 0xffffff28 (CMD_SCALE), then sx as 32 bits at byte 4, sy as 32 bits at byte 8 |
| Coproc.Screensaver | src/include/Graphics/EVE/command_defs.h:1054-1062 | a 4-byte image: header word 0xffffff2f (CMD_SCREENSAVER) |
| Coproc.Scrollbar | src/include/Graphics/EVE/command_defs.h:1064-1080 | a 20-byte image: header word 0xffffff11 (CMD_SCROLLBAR), then x as 16 bits at byte 4, y as 16 bits at byte 6, w as 16 bits at byte 8, h as 16 bits at byte 10, options as 16 bits at byte 12, value as 16 bits at byte 14, size as 16 bits at byte 16, range as 16 bits at byte 18 |
| Coproc.Setbase | src/include/Graphics/EVE/command_defs.h:1082-1091 | an 8-byte image: header word 0xffffff38 (CMD_SETBASE), then b as 16 bits at byte 4, zero as 16 bits at byte 6 |
| Coproc.Setbitmap | src/include/Graphics/EVE/command_defs.h:1093-1105 | a 16-byte image: header word 0xffffff43 (CMD_SETBITMAP), then source as 32 bits at byte 4, fmt as 16 bits at byte 8, width as 16 bits at byte 10, height as 16 bits at byte 12, zero as 16 bits at byte 14 |
| Coproc.Setfont | src/include/Graphics/EVE/command_defs.h:1107-1117 | a 12-byte image: header word 0xffffff2b (CMD_SETFONT), then font as 16 bits at byte 4, zero as 16 bits at byte 6, ptr as 32 bits at byte 8 |
| Coproc.Setfont2 | src/include/Graphics/EVE/command_defs.h:1119-1130 | a 16-byte image: header word 0xffffff3b (CMD_SETFONT2), then font as 16 bits at byte 4, zero as 16 bits at byte 6, ptr as 32 bits at byte 8, firstchar as 16 bits at byte 12, zero as 16 bits at byte 14 |
| Coproc.Setmatrix | src/include/Graphics/EVE/command_defs.h:1132-1140 | a 4-byte image: header word 0xffffff2a (CMD_SETMATRIX) |
| Coproc.Setrotate | src/include/Graphics/EVE/command_defs.h:1142-1151 | an 8-byte image: header word 0xffffff36 (CMD_SETROTATE), then r as 16 bits at byte 4, zero as 16 bits at byte 6 |
| Coproc.Setscratch | src/include/Graphics/EVE/command_defs.h:1153-1162 | an 8-byte image: header word 0xffffff3c (CMD_SETSCRATCH), then handle as 16 bits at byte 4, zero as 16 bits at byte 6 |
| Coproc.Sketch | src/include/Graphics/EVE/command_defs.h:1164-1172 | a 4-byte image: header word 0xffffff30 (CMD_SKETCH) |
| Coproc.Slider | src/include/Graphics/EVE/command_defs.h:1174-1189 | a 20-byte image: header word 0xffffff10 (CMD_SLIDER), then x as 16 bits at byte 4, y as 16 bits at byte 6, w as 16 bits at byte 8, h as 16 bits at byte 10, options as 16 bits at byte 12, value as 16 bits at byte 14, range as 16 bits at byte 16, zero as 16 bits at byte 18 |
| Coproc.Snapshot | src/include/Graphics/EVE/command_defs.h:1191-1200 | an 8-byte image: header word 0xffffff1f (CMD_SNAPSHOT), then ptr as 32 bits at byte 4 |
| Coproc.Snapshot2 | src/include/Graphics/EVE/command_defs.h:1202-1216 | a 20-byte image: header word 0xffffff37 (CMD_SNAPSHOT2), then fmt as 16 bits at byte 4, zero as 16 bits at byte 6, ptr as 32 bits at byte 8, x as 16 bits at byte 12, y as 16 bits at byte 14, w as 16 bits at byte 16, h as 16 bits at byte 18 |
| Coproc.Spinner | src/include/Graphics/EVE/command_defs.h:1218-1230 | a 12-byte image: header word 0xffffff16 (CMD_SPINNER), then x as 16 bits at byte 4, y as 16 bits at byte 6, style as 16 bits at byte 8, scale as 16 bits at byte 10 |
| Coproc.Stop | src/include/Graphics/EVE/command_defs.h:1232-1240 | a 4-byte image: header word 0xffffff17 (CMD_STOP) |
| Coproc.Swap | src/include/Graphics/EVE/command_defs.h:1242-1250 | a 4-byte image: header word 0xffffff01 (CMD_SWAP) |
| Coproc.Text | src/include/Graphics/EVE/command_defs.h:1252-1265 | a 12-byte image: header word 0xffffff0c (CMD_TEXT), then x as 16 bits at byte 4, y as 16 bits at byte 6, font as 16 bits at byte 8, options as 16 bits at byte 10 |
| Coproc.Toggle | src/include/Graphics/EVE/command_defs.h:1267-1282 | a 16-byte image: header word 0xffffff12 (CMD_TOGGLE), then x as 16 bits at byte 4, y as 16 bits at byte 6, w as 16 bits at byte 8, font as 16 bits at byte 10, options as 16 bits at byte 12, state as 16 bits at byte 14 |
| Coproc.Track | src/include/Graphics/EVE/command_defs.h:1284-1297 | a 16-byte image: header word 0xffffff2c (CMD_TRACK), then x as 16 bits at byte 4, y as 16 bits at byte 6, w as 16 bits at byte 8, h as 16 bits at byte 10, tag as 16 bits at byte 12, zero as 16 bits at byte 14 |
| Coproc.Translate | src/include/Graphics/EVE/command_defs.h:1299-1309 | a 12-byte image: header word 0xffffff27 (CMD_TRANSLATE), then tx as 32 bits at byte 4, ty as 32 bits at byte 8 |
| Coproc.Videoframe | src/include/Graphics/EVE/command_defs.h:1311-1321 | a 12-byte image: header word 0xffffff41 (CMD_VIDEOFRAME), then dst as 32 bits at byte 4, ptr as 32 bits at byte 8 |
| Coproc.Videostart | src/include/Graphics/EVE/command_defs.h:1323-1331 | a 4-byte image: header word 0xffffff40 (CMD_VIDEOSTART) |
| Eve.MakeCmdWord | src/include/Graphics/EVE/EVE.h:116-119 | for an opcode below 256 and a parameter below 2^24, the opcode is the top byte and the parameter the rest; the low 24 bits are always the parameter's (it is not masked) |
| Eve.MakeCoprocCmdWord | src/include/Graphics/EVE/EVE.h:501-504 | the top 24 bits are all set and the low byte is the command code |
| EveInline.BEGIN | src/include/Graphics/EVE/EVE.h:639-642 | for a primitive below 2^24 the word carries DL_BEGIN and the unmasked primitive, and it equals `begin`'s word exactly when the primitive fits the 4-bit field |
| EveInline.END | src/include/Graphics/EVE/EVE.h:644-647 | equals the word command_defs.h `end` stores for the same arguments |
| EveInline.DISPLAY | src/include/Graphics/EVE/EVE.h:652-655 | equals the word command_defs.h `display` stores for the same arguments |
| EveInline.ALPHA_FUNC | src/include/Graphics/EVE/EVE.h:660-664 | the bits above the 3-bit function are zero; the word equals `alpha_func`'s exactly when bit 3 of the function is clear (EVE.h keeps 3 bits, command_defs.h 4) |
| EveInline.BITMAP_HANDLE | src/include/Graphics/EVE/EVE.h:669-672 | equals the word command_defs.h `bitmap_handle` stores for the same arguments |
| EveInline.BITMAP_LAYOUT | src/include/Graphics/EVE/EVE.h:677-683 | equals the word command_defs.h `bitmap_layout` stores for the same arguments |
| EveInline.BITMAP_SIZE | src/include/Graphics/EVE/EVE.h:688-696 | equals the word command_defs.h `bitmap_size` stores for the same arguments |
| EveInline.BITMAP_LAYOUT_H | src/include/Graphics/EVE/EVE.h:704-709 | equals `bitmap_layout_h`'s word for linestride >> 10 and height >> 9 (only bits 10-11 and 9-10 survive) |
| EveInline.BITMAP_SIZE_H | src/include/Graphics/EVE/EVE.h:717-722 | equals `bitmap_size_h`'s word for width >> 9 and height >> 9 (only bits 9-10 survive) |
| EveInline.BITMAP_SOURCE | src/include/Graphics/EVE/EVE.h:727-730 | equals the word command_defs.h `bitmap_source` stores for the same arguments |
| EveInline.BITMAP_TRANSFORM_A | src/include/Graphics/EVE/EVE.h:735-738 | equals the word command_defs.h `bitmap_transform_a` stores for the same arguments |
| EveInline.BITMAP_TRANSFORM_B | src/include/Graphics/EVE/EVE.h:743-746 | equals the word command_defs.h `bitmap_transform_b` stores for the same arguments |
| EveInline.BITMAP_TRANSFORM_D | src/include/Graphics/EVE/EVE.h:751-754 | equals the word command_defs.h `bitmap_transform_d` stores for the same arguments |
| EveInline.BITMAP_TRANSFORM_E | src/include/Graphics/EVE/EVE.h:759-762 | equals the word command_defs.h `bitmap_transform_e` stores for the same arguments |
| EveInline.BITMAP_TRANSFORM_C | src/include/Graphics/EVE/EVE.h:767-770 | as written: DL_BITMAP_TRANSFORM_C with the coefficient masked to 17 bits, equal to `bitmap_transform_c`'s word exactly when bits 17-23 of the coefficient are clear |
| EveInline.BITMAP_TRANSFORM_F | src/include/Graphics/EVE/EVE.h:775-778 | as written: DL_BITMAP_TRANSFORM_F with the coefficient masked to 17 bits, equal to `bitmap_transform_f`'s word exactly when bits 17-23 of the coefficient are clear |
| EveInline.BITMAP_TRANSFORM_C24 | src/include/Graphics/EVE/EVE.h:767-770 | corrected: keeps all 24 bits and equals `bitmap_transform_c`'s word for every coefficient |
| EveInline.BITMAP_TRANSFORM_F24 | src/include/Graphics/EVE/EVE.h:775-778 | corrected: keeps all 24 bits and equals `bitmap_transform_f`'s word for every coefficient |
| EveInline.BLEND_FUNC | src/include/Graphics/EVE/EVE.h:783-788 | equals the word command_defs.h `blend_func` stores for the same arguments |
| EveInline.CALL | src/include/Graphics/EVE/EVE.h:793-796 | equals the word command_defs.h `call` stores for the same arguments |
| EveInline.JUMP | src/include/Graphics/EVE/EVE.h:801-804 | equals the word command_defs.h `jump` stores for the same arguments |
| EveInline.CELL | src/include/Graphics/EVE/EVE.h:809-812 | equals the word command_defs.h `cell` stores for the same arguments |
| EveInline.CLEAR | src/include/Graphics/EVE/EVE.h:817-823 | equals the word command_defs.h `clear` stores for the same arguments |
| EveInline.CLEAR_COLOR_A | src/include/Graphics/EVE/EVE.h:828-831 | equals the word command_defs.h `clear_color_a` stores for the same arguments |
| EveInline.CLEAR_COLOR_RGB | src/include/Graphics/EVE/EVE.h:836-842 | equals the word command_defs.h `clear_color_rgb` stores for the same arguments |
| EveInline.CLEAR_STENCIL | src/include/Graphics/EVE/EVE.h:847-850 | equals the word command_defs.h `clear_stencil` stores for the same arguments |
| EveInline.CLEAR_TAG | src/include/Graphics/EVE/EVE.h:855-858 | equals the word command_defs.h `clear_tag` stores for the same arguments |
| EveInline.COLOR_A | src/include/Graphics/EVE/EVE.h:863-866 | equals the word command_defs.h `color_a` stores for the same arguments |
| EveInline.COLOR_MASK | src/include/Graphics/EVE/EVE.h:871-878 | equals the word command_defs.h `color_mask` stores for the same arguments |
| EveInline.COLOR_RGB | src/include/Graphics/EVE/EVE.h:883-889 | equals the word command_defs.h `color_rgb` stores for the same arguments |
| EveInline.LINE_WIDTH | src/include/Graphics/EVE/EVE.h:894-897 | equals the word command_defs.h `line_width` stores for the same arguments |
| EveInline.MACRO | src/include/Graphics/EVE/EVE.h:902-905 | equals the word command_defs.h `macro` stores for the same arguments |
| EveInline.PALETTE_SOURCE | src/include/Graphics/EVE/EVE.h:911-914 | equals the word command_defs.h `palette_source` stores for the same arguments |
| EveInline.POINT_SIZE | src/include/Graphics/EVE/EVE.h:919-922 | equals the word command_defs.h `point_size` stores for the same arguments |
| EveInline.SCISSOR_SIZE | src/include/Graphics/EVE/EVE.h:928-933 | equals the word command_defs.h `scissor_size` stores for the same arguments |
| EveInline.SCISSOR_XY | src/include/Graphics/EVE/EVE.h:939-944 | equals the word command_defs.h `scissor_xy` stores for the same arguments |
| EveInline.STENCIL_FUNC | src/include/Graphics/EVE/EVE.h:949-955 | bits 19-23 are zero; the word equals `stencil_func`'s exactly when bit 3 of the function is clear |
| EveInline.STENCIL_MASK | src/include/Graphics/EVE/EVE.h:960-963 | equals the word command_defs.h `stencil_mask` stores for the same arguments |
| EveInline.STENCIL_OP | src/include/Graphics/EVE/EVE.h:968-973 | equals the word command_defs.h `stencil_op` stores for the same arguments |
| EveInline.TAG | src/include/Graphics/EVE/EVE.h:978-981 | equals the word command_defs.h `tag` stores for the same arguments |
| EveInline.TAG_MASK | src/include/Graphics/EVE/EVE.h:986-989 | the word carries DL_TAG_MASK and bit 0 of the mask; for a 0/1 mask it equals `tag_mask`'s |
| EveInline.VERTEX2F | src/include/Graphics/EVE/EVE.h:994-999 | equals the word `vertex2f` stores for the coordinates sign-extended to uint32_t |
| EveInline.VERTEX2II | src/include/Graphics/EVE/EVE.h:1004-1011 | equals the word command_defs.h `vertex2ii` stores for the same arguments |
| EveInline.VERTEX_FORMAT | src/include/Graphics/EVE/EVE.h:1016-1019 | equals the word command_defs.h `vertex_format` stores for the same arguments |
| EveInline.VERTEX_TRANSLATE_X | src/include/Graphics/EVE/EVE.h:1024-1027 | equals the word command_defs.h `vertex_translate_x` stores for the same arguments |
| EveInline.VERTEX_TRANSLATE_Y | src/include/Graphics/EVE/EVE.h:1032-1035 | equals the word command_defs.h `vertex_translate_y` stores for the same arguments |
| EveInline.TransformMaskCounterexample | src/include/Graphics/EVE/EVE.h:767-770 | for -1.0 in signed 15.8 (0xffffff00) the 17-bit mask sends 0x1ff00 where `bitmap_transform_c` sends 0xffff00; the F builder differs the same way |
| EveInline.TransformCorrectedAgrees | src/include/Graphics/EVE/EVE.h:767-770 | the 17-bit and 24-bit builders agree exactly on coefficients whose bits 17-23 are clear |
| AudioFeed.Align8 | src/AudioFifo.cpp:5-8 | a multiple of 8, at most the value and less than 8 below it |
| AudioFeed.Reduce | src/AudioFifo.cpp:14 | the write offset reduced below the window size; an offset already inside is unchanged |
| AudioFeed.Split | src/AudioFifo.cpp:14-23 | the two regions before clamping: after a wrap (read offset behind writepos) the first reaches the window end and the second is the read offset rounded down to a multiple of 8; otherwise there is one region, from writepos up to within 8 bytes of the read offset and never past it |
| AudioFeed.Clamp | src/AudioFifo.cpp:31-36 | the two regions together fit the 4092-byte buffer; the first is cut to 4092 when longer; the second never grows; when clamping applies they total exactly 4092, otherwise nothing changes |
| AudioFeed.SplitExample | src/AudioFifo.cpp:14-23 | window 8192, write offset 8000, read offset 100 split into 192 bytes at the write offset and 96 at the window start |
| AudioFeed.RegionsStayBehindReader | src/AudioFifo.cpp:14-36 | for a read offset inside the window, the first region ends within the window and, when the reader is ahead, at or before it; a second region exists only after a wrap and ends at or before the read offset |
| AudioFeed.RestartWritesNothing | src/AudioFifo.cpp:67-68 | the refill from offset 0 after the reset to 0 takes the nothing-to-write branch |
| AudioFeed.PlayInterval | src/AudioFifo.cpp:85-90 | the refill period is three quarters (rounded down) of the time the device takes to drain the buffer, doubled for ADPCM |
| AudioFeed.AudioFifo.constructor | src/include/Graphics/EVE/AudioFifo.h:10-13 | the window is the given address and size, with no source, the timer stopped and the write offset 0 |
| AudioFeed.AudioFifo.FillBuffer | src/AudioFifo.cpp:10-49 | with nothing to write: the timer stops, REG_PLAYBACK_LOOP gets 0 and the source is not read; otherwise the clamped regions are refilled as `Refilled` describes; the write offset is first reduced into the window |
| AudioFeed.AudioFifo.WriteRegions | src/AudioFifo.cpp:38-48 | the buffer holds the bytes read followed by zeros up to the two regions' total; the first region is written at fifoAddress + writepos, the second (only if non-empty) at fifoAddress from the buffer after the first; the write offset grows by the bytes read, not by the padded total |
| AudioFeed.AudioFifo.ReadPadded | src/AudioFifo.cpp:38-41 | at most the requested bytes are taken from the front of the source; the buffer's first n bytes are those bytes followed by zeros |
| AudioFeed.AudioFifo.ReadPosComplete | src/AudioFifo.cpp:51-60 | the refill, with `FillBuffer`'s outcome, from the read offset taken as the reported address minus fifoAddress in 32-bit arithmetic |
| AudioFeed.AudioFifo.Stop | src/AudioFifo.cpp:101-106 | the timer stops and REG_PLAYBACK_LENGTH = 0 then REG_PLAYBACK_PLAY = 1 are written; nothing else changes |
| AudioFeed.AudioFifo.Play | src/AudioFifo.cpp:62-99 | after stop, the source is taken, the write offset is 0, the refill writes only REG_PLAYBACK_LOOP = 0, the set-up block [address, size, 0, frequency, format, 1, 1] goes to REG_PLAYBACK_START, and the timer runs at `PlayInterval` |
| MediaFeed.MediaFifoCmd | src/MediaFifo.cpp:65-68 | `cmdlist1`, the CMD_MEDIAFIFO block of `begin`: one 12-byte write (opcode word, window address, window size) to REG_CMDB_WRITE |
| MediaFeed.FreeSpace | src/MediaFifo.cpp:7-10 | the free space in 32-bit size_t arithmetic, below 2^32 |
| MediaFeed.FreeSpaceCases | src/MediaFifo.cpp:7-10 | with both offsets in the window, the free space is the ring distance minus 4 (size - 4 when they meet) and lies in [0, size - 4] exactly when the reader is not 1 to 3 bytes ahead; then it wraps to at least 2^32 - 3 |
| MediaFeed.FreshWindowSpace | src/MediaFifo.cpp:72-73 | the first refill after `begin` sees the whole window but the 4-byte gap |
| MediaFeed.Advance | src/MediaFifo.cpp:32-35 | the write offset after a chunk stays below the window size, wrapping to 0 at its end |
| MediaFeed.FeedsSnoc | src/MediaFifo.cpp:29-35 | one more chunk at the current write offset extends a refill, carrying its bytes |
| MediaFeed.FeedsInWindow | src/MediaFifo.cpp:29 | every write of a refill lies inside [fifoAddress, fifoAddress + fifoSize), and there are writes exactly when some payload was carried |
| MediaFeed.MediaFifo.constructor | src/include/Graphics/EVE/MediaFifo.h:21-24 | the window is the given 4-aligned address and size, with buffer index 0, no read in flight and the timer stopped |
| MediaFeed.MediaFifo.FillBuffer | src/MediaFifo.cpp:5-47 | the bytes taken from the source never exceed the free space (none when it is below a chunk); the chunk writes are `Feeds` of exactly those bytes; REG_MEDIAFIFO_WRITE gets the new write offset if and only if something was written; the buffer index toggles once per write; `RefillEnds`: every write but the last is full, the refill stops the timer only with a chunk of space still free, otherwise it wrote something and ended short of a chunk of space or after a short read, and a source with nothing left stops the timer whenever a chunk of space is free |
| MediaFeed.MediaFifo.PourAll | src/MediaFifo.cpp:12-41 | the loop pours while a whole chunk of space is free; its writes carry the bytes taken from the source in order, within the space and the window; every write but the last is full; it stops (and stops the timer) only with a chunk of space free and every write full; otherwise, given a chunk of space, it wrote something and ends short of a chunk of space or after a short last write |
| MediaFeed.MediaFifo.Pour | src/MediaFifo.cpp:14-36 | at most the requested bytes are read into the current buffer; nothing is written when none came; otherwise one write at fifoAddress + writepos, the offset advances with wrap and the buffer index toggles |
| MediaFeed.MediaFifo.PourChunk | src/MediaFifo.cpp:14-40 | one pass asks for `Limit(writepos)` bytes, the chunk cut at the window end (MediaFifo.cpp lines 14-17), takes no more than that, and `full` holds exactly when it got all of it; the refill is extended by one write of the bytes poured at fifoAddress + writepos, or left as it was when the source gave nothing |
| MediaFeed.MediaFifo.Update | src/MediaFifo.cpp:49-58 | the busy flag is cleared, then the refill from the reported read offset, with `FillBuffer`'s outcome: within the free space, the chunk writes carrying the bytes taken, REG_MEDIAFIFO_WRITE published when something was written, and `RefillEnds` for when the timer stops |
| MediaFeed.MediaFifo.TimerTick | src/MediaFifo.cpp:80-87 | a read is issued exactly when none is in flight, and one is then in flight |
| MediaFeed.MediaFifo.End | src/MediaFifo.cpp:92-95 | only the timer stops |
| MediaFeed.MediaFifo.Begin | src/MediaFifo.cpp:60-90 | the device log is exactly: the words [0xffffff39, fifoAddress, fifoSize] to REG_CMDB_WRITE, then the refill's chunk writes from offset 0, which are `Feeds` of the first bytes of the new source (at most size - 4 of them), then REG_MEDIAFIFO_WRITE when something was written; the buffer index toggles once per write; the preload is the full fillBuffer(0) loop, by `RefillEnds` with free space fifoSize - 4: every write but the last is a full chunk, and it ends only with less than a chunk of space left, after a short read, or on an empty source; it writes nothing from a chunk of free space only when the first read reports nothing (`stopped`); the timer runs |
| CommandBuffers.CommandBuffer.constructor | src/include/Graphics/EVE/CommandBuffer.h:67-69 | a 4096-byte buffer holding nothing |
| CommandBuffers.CommandBuffer.Reset | src/include/Graphics/EVE/CommandBuffer.h:10-13 | the contents become empty |
| CommandBuffers.CommandBuffer.Write | src/include/Graphics/EVE/CommandBuffer.h:15-20 | under the assertion size + len < 4096, the contents grow by exactly the given bytes and earlier bytes are kept |
| CommandBuffers.CommandBuffer.Align | src/include/Graphics/EVE/CommandBuffer.h:29-38 | zero bytes are appended up to the next multiple of 4 (none when aligned), leaving the size a multiple of 4 and at most 4096 |
| CommandBuffers.CommandBuffer.WriteString | src/include/Graphics/EVE/CommandBuffer.h:22-27 | the characters, a NUL and zeros up to a multiple of 4 are appended; from an aligned start that is `StringImage` |
| CommandBuffers.CommandBuffer.Length | src/include/Graphics/EVE/CommandBuffer.h:45-48 | the number of bytes appended since the last reset, at most 4096 |
| CommandBuffers.CommandBuffer.WriteWord | src/include/Graphics/EVE/command_defs.h:15-17 | a display-list emitter appends exactly the 4 little-endian bytes of its word |
| CommandBuffers.CommandBuffer.SetColor | src/include/Graphics/EVE/CommandBuffer.h:52-55 | `color(c)` appends what `color_rgb` of its three channels appends, which is EVE.h's COLOR_RGB word; alpha is not sent |
| CommandBuffers.CommandBuffer.ClearColor | src/include/Graphics/EVE/CommandBuffer.h:57-60 | `clear_color(c)` appends EVE.h's CLEAR_COLOR_RGB word of its three channels |
| CommandBuffers.CommandBuffer.Vertex2fPoint | src/include/Graphics/EVE/CommandBuffer.h:62-65 | `vertex2f(Point)` appends EVE.h's VERTEX2F word of the two coordinates |
| EveTool.Align | tools/eve.py:916-918 | a multiple of the size, at or above the offset and less than one size above it; an offset already a multiple is unchanged |
| EveTool.AlignLeast | tools/eve.py:916-918 | no multiple of the size at or above the offset lies below `align`'s result (it is the smallest) |
| EveTool.AlignIdempotent | tools/eve.py:916-918 | aligning twice is aligning once |
| EveTool.DataBlock | tools/eve.py:363-369 | a data block has no bit width of its own |
| EveTool.SizeClasses | tools/eve.py:245-251 | `Param.size`, the function `Size`: the size is 0 exactly for bit count 0, 2 exactly for 1 to 16 bits and 4 exactly for 17 to 32, and always holds the bits |
| EveTool.LeBytesDecode | tools/eve.py:266-270 | reading back the k little-endian bytes `struct.pack` gives for n yields n mod 2^(8k) |
| EveTool.StructRoundTrip | tools/eve.py:266-282 | `struct.pack` succeeds exactly for values the format accepts, and `struct.unpack` gives them back |
| EveTool.Ljust | tools/eve.py:261 | keeps the bytes, pads with zeros up to the length and never truncates |
| EveTool.PackInteger | tools/eve.py:262-270 | with either packer (as written, `PackAsWritten`, '<H' for every 2-byte parameter; or corrected, '<h' for signed ones) an integer parameter packs exactly when its (scaled) value fits that format, into `Size(p)` little-endian bytes |
| EveTool.PackUnpack | tools/eve.py:258-282 | unpacking what `pack` gave for an integer that fits returns it (a fixed-point one as its scaled value over the scale), from exactly `Size(p)` bytes |
| EveTool.PackCString | tools/eve.py:259-261 | a CString packs to its bytes, a NUL and zeros: a multiple of 4 bytes, at most 4 longer than the string |
| EveTool.NegativeInt16Rejected | tools/eve.py:266-274 | as written (`PackAsWritten`, `UnpackAsWritten`), -1 for a signed 16-bit parameter raises `struct.error` and 0xffff unpacks as 65535; with '<h' it packs to ff ff and unpacks to -1 |
| EveTool.PackAgrees | tools/eve.py:266-270 | the corrected packer differs from the written one only for signed 2-byte parameters given a value outside 0 to 0x7fff |
| EveTool.CmdwordFields | tools/eve.py:293-295 | `get_cmdword`, the function `GetCmdword`: the command word exists exactly for parameters in 0 to 0xffffff, and holds the opcode above bit 24 and the parameter below |
| EveTool.DlPack | tools/eve.py:325-335 | the loop computes `DlPackSpec` |
| EveTool.AccumulateCompose | tools/eve.py:327-333 | for in-range arguments the loop leaves the accumulator shifted above all fields, with the fields composed in declared order below it |
| EveTool.AccumulateRejects | tools/eve.py:328-333 | the loop raises exactly when some argument exceeds its field's mask, and it raises AttributeError (`param.cmd` does not exist) |
| EveTool.DlPackWord | tools/eve.py:325-335 | for in-range arguments, 4 little-endian bytes of the opcode times 2^24 plus the fields, the last argument in the lowest field |
| EveTool.DlPackRejects | tools/eve.py:325-335 | a wrong argument count raises AssertionError; otherwise it raises AttributeError exactly when some argument exceeds its mask |
| EveTool.DlPackOpcodeByte | tools/eve.py:334-335 | when the fields fit 24 bits, byte 3 of the packed word is the opcode |
| EveTool.DlUnpack | tools/eve.py:312-323 | the method computes `DlUnpackSpec` |
| EveTool.ReadFields | tools/eve.py:317-322 | the field loop reads `(cmdword >> off) & mask` for each parameter from bit 0 up |
| EveTool.FieldsCompose | tools/eve.py:317-322 | reading the fields of a word composed from in-range values recovers those values, paired with their parameters |
| EveTool.DlRoundTrip | tools/eve.py:312-335 | unpacking what `pack(a1..an)` gave returns an..a1 paired with the parameters in declared order, and size 4 |
| EveTool.CpPack | tools/eve.py:599-610 | for either packer (`AsWritten` is eve.py as written, `Corrected` uses '<h' for signed 2-byte parameters), the method computes `CpPackSpec` |
| EveTool.CpHeaderBytes | tools/eve.py:600 | the header `struct.pack('<L', 0xffffff00 | code)` of a code below 256 is `CpHeader(code)`, 4 bytes that read back little-endian as 0xffffff00 + code |
| EveTool.CpPackParams | tools/eve.py:601-609 | the loop over `zip(params, args)` computes `CpFold`: each argument padded to its offset and packed, stopping at the first error |
| EveTool.CpPackLayout | tools/eve.py:599-617 | for either packer, a command laid out by `initialise` with integer arguments that pack: the result is exactly `CpCmd.size` bytes (the function `CpSize`), a multiple of 4, with the header word in bytes 0-3 and each argument's packed bytes at its parameter's offset |
| EveTool.CpPackInOrder | tools/eve.py:599-617 | the same image and size for any parameters whose offsets are in order from byte 4 |
| EveTool.CpFoldLayout | tools/eve.py:601-609 | the loop keeps what was built before, places each argument's packed bytes at its parameter's offset, and ends where the last parameter ends |
| EveTool.InitialisedInOrder | tools/eve.py:937-942 | the offsets `initialise` gives are in order: each parameter starts at or after the end of the one before |
| EveTool.PaddedImage | tools/eve.py:610 | padding to a multiple of 4 keeps the header and every placed argument |
| EveTool.NegativeFirstRejected | tools/eve.py:599-610 | as written, a command whose first parameter is signed 16-bit cannot be packed with a negative first argument (`struct.error`); the corrected packer packs it when it fits 16 signed bits |
| EveTool.Initialised | tools/eve.py:937-942 | one parameter offset per parameter |
| EveTool.InitialisedLayout | tools/eve.py:937-942 | every parameter keeps its name and type and gets an offset at or after the start, aligned to its own size, and ends at or before every later one begins |
| EveTool.InitialisedShape | tools/eve.py:937-942 | each parameter keeps everything but its offset, which is set, at or after the start and aligned to the parameter's size |
| EveTool.InitialisedOrdered | tools/eve.py:937-942 | each parameter ends at or before every later one begins (increasing, non-overlapping offsets) |
| EveTool.InitialisedIdempotent | tools/eve.py:937-942 | running the layout again gives the same offsets |
| EveTool.LayOut | tools/eve.py:937-942 | the loop over one command computes `Initialised(params, 4)` |
| EveCommands.DisplayListOpcodesAgree | tools/eve.py:401-569 | every display-list opcode equals the EVE.h constant of that name |
| EveCommands.CoprocessorOpcodesAgree | tools/eve.py:628-901 | every co-processor opcode equals the EVE.h constant of that name (GRADIENTA: the literal of command_defs.h) |
| EveCommands.SyncAbsent | tools/eve.py:628-901 | no co-processor entry has the CMD_SYNC opcode of EVE.h |
| EveCommands.Select | tools/eve.py:904-912 | the table `get_command` looks in: the co-processor table exactly when the top 24 bits of the word are all set |
| EveCommands.GetCommand | tools/eve.py:904-913 | `get_command(word)`: a command it returns is in the selected table and has the selected opcode, and it returns `None` exactly when no command there has that opcode |
| EveCommands.Find | tools/eve.py:913 | the first command with the opcode, if any; `None` exactly when no command has it |
| EveCommands.SelectOpcode | tools/eve.py:904-912 | a word whose top 24 bits are set selects the co-processor table by its low byte; otherwise the top byte, or just its top two bits when either is set, selects among the display-list commands |
| EveCommands.CpHeaderDecodes | tools/eve.py:599-600 | the header `CpCmd.pack` writes is the 4 little-endian bytes of 0xffffff00 + code, read back as that word, and `get_command` of it is the first co-processor command with that code, or none |
| EveCommands.CpHeaderFound | tools/eve.py:904-913 | for the code of any co-processor table entry, `get_command` of its header finds a command: `next` never runs out |
| EveCommands.DlWordDecodes | tools/eve.py:904-913 | for a command whose fields stay out of the selecting bits, `get_command` of a packed word finds the first display-list command with its opcode |
| EveCommands.GetCommandExamples | tools/eve.py:904-913 | 0xffffff00 is DLSTART, 0xffffff01 is SWAP and 0 is DISPLAY |
| EveCommands.Initialise | tools/eve.py:933-942 | every co-processor table entry gets its parameter offsets from byte 4; nothing but the offsets changes |
| EveCommands.Loaded | tools/eve.py:933-942 | a loaded command keeps its code, name and parameter names, and every parameter has an offset |
| EveCommands.TextLayout | tools/eve.py:653-659 | TEXT: four 16-bit fields from byte 4, string at byte 12, size 12; the command_defs.h image has the same size |
| EveCommands.SetfontLayout | tools/eve.py:809-812 | SETFONT: font at byte 4, ptr padded to byte 8, size 12, as the C struct; the command_defs.h image has the same size |
| EveCommands.MemsetLayout | tools/eve.py:759-763 | MEMSET: ptr at 4, value at 8, num padded to 12, size 16, as the C struct; the command_defs.h image has the same size |
| EveCommands.NumberLayout | tools/eve.py:827-833 | NUMBER: four 16-bit fields, then the number at byte 12, size 16; the command_defs.h image has the same size |
| EveCommands.GradientaLayout | tools/eve.py:893-901 | GRADIENTA: offsets 4, 6, 8, 12, 14, 16, size 20, as the C struct; the command_defs.h image has the same size |
| EveCommands.RomfontLayout | tools/eve.py:878-881 | ROMFONT: font stored in 32 bits, slot at byte 8, size 12; the command_defs.h image has the same size |
| EveCommands.Snapshot2Layout | tools/eve.py:852-859 | SNAPSHOT2: format at 4, address padded to 8, then four 16-bit fields, size 20; the command_defs.h image has the same size |
| EveCommands.SetbitmapLayout | tools/eve.py:887-892 | SETBITMAP: address at 4, then three 16-bit fields at 8, 10 and 12, size 16; the command_defs.h image has the same size |
| DisplayState.StepWord | src/include/Graphics/EVE/EVE.h:116-119 | the device, reading the opcode in the top byte of the `MAKE_CMD_WORD` word a surface command is sent as, does exactly what that command means; vertices, VERTEX_FORMAT, DISPLAY and SWAP leave the tracked state alone |
| DisplayState.RunWords | src/include/Graphics/EVE/EVE.h:116-119 | running the words of a command list is applying the commands one after another |
| DisplayState.BeginCmdsSync | src/include/Graphics/EVE/Surface.h:73-79 | what `begin(p)` sends moves the device to primitive p; nothing is sent exactly when p is cached |
| DisplayState.EndCmdsSync | src/include/Graphics/EVE/Surface.h:81-87 | what `end()` sends leaves no primitive selected; nothing is sent exactly when none is cached |
| DisplayState.PointSizeCmdsSync | src/include/Graphics/EVE/Surface.h:57-63 | what `setPointSize(s)` sends gives the device point size s; nothing is sent exactly when s is cached |
| DisplayState.ColorCmdsSync | src/Surface.cpp:262-279 | what `setColor(c)` sends gives the device exactly colour c; nothing is sent exactly when c is cached |
| DisplayState.PreambleRestarts | src/Surface.cpp:229-234 | after the preamble the device is in its initial state, whatever came before |
| DisplayState.PreambleImage | src/Surface.cpp:229-234 | the preamble is the 8 bytes of 0xffffff00 (DLSTART) and 0x27000000 (VERTEX_FORMAT(0)) |
| DisplayState.PreambleCoherent | src/Surface.cpp:229-234 | a fresh display list with the default cache is coherent |
| DisplayState.StaleContextAfterReset | src/Surface.cpp:229-234 | as written, a cache holding GP_RECTS after `reset` is not coherent: `begin(GP_RECTS)` sends nothing and the device has no primitive selected |
| DisplayState.BeginKeepsCoherent | src/include/Graphics/EVE/Surface.h:73-79 | `begin` keeps the cache coherent |
| DisplayState.EndKeepsCoherent | src/include/Graphics/EVE/Surface.h:81-87 | `end` keeps the cache coherent |
| DisplayState.PointSizeKeepsCoherent | src/include/Graphics/EVE/Surface.h:57-63 | `setPointSize` keeps the cache coherent |
| DisplayState.ColorKeepsCoherent | src/Surface.cpp:262-279 | `setColor` keeps the cache coherent |
| DisplayState.NeutralKeepsCoherent | src/include/Graphics/EVE/Surface.h:65-71 | vertices, DISPLAY and SWAP leave the cache coherent |
| DisplayState.FillRectDraws | src/Surface.cpp:253-260 | on a coherent cache, the device draws rectangles in the requested colour when the two vertices arrive, and the cache stays coherent |
| DisplayState.SetPixelDraws | src/Surface.cpp:71-77 | on a coherent cache, the device draws points in the requested colour when the vertex arrives, and the cache stays coherent |
| Surfaces.EveSurface.constructor | src/include/Graphics/EVE/Surface.h:44-48 | the default context (no primitive, white, point size 16), then `reset()` |
| Surfaces.EveSurface.Stat | src/Surface.cpp:15-21 | used is the buffer length (4 bytes per word) and used + available is 4096 |
| Surfaces.EveSurface.Reset | src/Surface.cpp:229-234 | as written: the buffer holds exactly 00 ff ff ff 00 00 00 27 and the cache is unchanged |
| Surfaces.EveSurface.ResetFrame | src/Surface.cpp:229-234 | corrected: the same 8 bytes with the default cache, which is coherent |
| Surfaces.EveSurface.Begin | src/include/Graphics/EVE/Surface.h:73-79 | BEGIN(p) is appended exactly when p differs from the cached primitive, which becomes p |
| Surfaces.EveSurface.End | src/include/Graphics/EVE/Surface.h:81-87 | END is appended exactly when a primitive is cached, and none is cached after |
| Surfaces.EveSurface.SetPointSize | src/include/Graphics/EVE/Surface.h:57-63 | POINT_SIZE is appended exactly when the size differs from the cached one, which becomes it |
| Surfaces.EveSurface.SetColor | src/Surface.cpp:262-279 | nothing for the cached colour; else COLOR_A when the alpha differs and then COLOR_RGB when the 24 colour bits differ; the colour is cached |
| Surfaces.EveSurface.Vertex | src/include/Graphics/EVE/Surface.h:65-71 | exactly one VERTEX2F word of both coordinates times the display scale (16-bit arithmetic) |
| Surfaces.EveSurface.FillRect | src/Surface.cpp:253-260 | setColor, begin(GP_RECTS), then the two corner vertices; no END |
| Surfaces.EveSurface.SetPixel | src/Surface.cpp:71-77 | setColor, begin(GP_POINTS), then one vertex; no END |
| Surfaces.EveSurface.Present | src/Surface.cpp:236-251 | DISPLAY then SWAP are appended (8 more bytes), then the whole buffer is written to REG_CMDB_WRITE |
| CommandBuffers.CommandBuffer.ColorA | src/include/Graphics/EVE/command_defs.h:281-291 | appends exactly the 4 bytes of `color_a`'s word |
| CommandBuffers.CommandBuffer.ColorRgb | src/include/Graphics/EVE/command_defs.h:308-319 | appends exactly the 4 bytes of `color_rgb`'s word |
| CommandBuffers.CommandBuffer.Begin | src/include/Graphics/EVE/command_defs.h:20-30 | appends exactly the 4 bytes of `begin`'s word |
| CommandBuffers.CommandBuffer.End | src/include/Graphics/EVE/command_defs.h:332-341 | appends exactly the 4 bytes of `end`'s word |
| CommandBuffers.CommandBuffer.PointSize | src/include/Graphics/EVE/command_defs.h:402-412 | appends exactly the 4 bytes of `point_size`'s word |
| CommandBuffers.CommandBuffer.Vertex2f | src/include/Graphics/EVE/command_defs.h:535-545 | appends exactly the 4 bytes of `vertex2f`'s word |
| CommandBuffers.CommandBuffer.VertexFormat | src/include/Graphics/EVE/command_defs.h:561-571 | appends exactly the 4 bytes of `vertex_format`'s word |
| CommandBuffers.CommandBuffer.Display | src/include/Graphics/EVE/command_defs.h:321-330 | appends exactly the 4 bytes of `display`'s word |
| CommandBuffers.CommandBuffer.Dlstart | src/include/Graphics/EVE/command_defs.h:692-700 | appends exactly the 4 bytes of `dlstart`'s image |
| CommandBuffers.CommandBuffer.Swap | src/include/Graphics/EVE/command_defs.h:1242-1250 | appends exactly the 4 bytes of `swap`'s image |
| CommandBuffers.CommandBuffer.Text | src/include/Graphics/EVE/command_defs.h:1252-1265 | appends `text`'s fixed image, then the string bytes and a NUL and zeros up to the next multiple of 4, leaving the size aligned; from an aligned start that is the fixed image then the string image |
| CommandBuffers.CommandBuffer.Button | src/include/Graphics/EVE/command_defs.h:621-636 | appends `button`'s fixed image, then the string bytes and a NUL and zeros up to the next multiple of 4, leaving the size aligned; from an aligned start that is the fixed image then the string image |
| CommandBuffers.CommandBuffer.Keys | src/include/Graphics/EVE/command_defs.h:838-853 | appends `keys`'s fixed image, then the string bytes and a NUL and zeros up to the next multiple of 4, leaving the size aligned; from an aligned start that is the fixed image then the string image |
| CommandBuffers.CommandBuffer.Toggle | src/include/Graphics/EVE/command_defs.h:1267-1282 | appends `toggle`'s fixed image, then the string bytes and a NUL and zeros up to the next multiple of 4, leaving the size aligned; from an aligned start that is the fixed image then the string image |
| CommandBuffers.CommandBuffer.Inflate | src/include/Graphics/EVE/command_defs.h:814-825 | appends `inflate`'s fixed image, then the raw bytes and zeros up to the next multiple of 4, leaving the size aligned; from an aligned start that is the fixed image then the data image |
| CommandBuffers.CommandBuffer.Memwrite | src/include/Graphics/EVE/command_defs.h:938-950 | appends `memwrite`'s fixed image, then the raw bytes and zeros up to the next multiple of 4, leaving the size aligned; from an aligned start that is the fixed image then the data image |

## Left out

- `coproc.h` and its free functions: a legacy interface that calls into code which is not part of this model.
- `Display.cpp` / `Display.h` transport (SPI, DMA, the device's register map beyond the addresses used): device writes are kept as a log of `Transfer` values, and reads come in as method arguments.
- Timers, interrupt-driven completion and `queueCallback`: a running timer is a boolean flag, and a completed read is a direct call of the callback method with the value read. `EveSurface::present` queues the caller's `PresentCallback` with its `param` after the write (Surface.cpp lines 247-249); `Surfaces.EveSurface.Present` takes neither and models only the write.
- Debug logging: the `debug_i` calls of `present` (Surface.cpp line 244) and of the media refill (MediaFifo.cpp line 22) produce no device traffic and are not modelled.
- MediaFeed.MediaFifo.Begin: the busy-wait on `REG_CMDB_SPACE` after CMD_MEDIAFIFO is sent (MediaFifo.cpp lines 69-71) is not modelled; device reads are not part of the log, so the refill follows the command block directly.
- DisplayState.GP_NONE: Surface.h uses `EVE::GP_NONE`, but the `GraphicsPrimitive` enum of EVE.h (lines 228-229) begins at `GP_BITMAPS = 1` and does not define `GP_NONE`; the model takes its value to be 0, which no BEGIN primitive uses.
- AudioFeed.AudioFifo.Play: requires `0 < frequency`, because AudioFifo.cpp line 85 divides by the frequency to get the timer interval and the C++ has no defined result for a zero frequency; `frequency` and `format` are also taken below 2^32, the width of the C++ parameters.
- `Types.h` and fixed-point conversions from floating point: a fixed-point argument of `eve.py` is an integer scaled by 256 or 65536, and unpacking gives a ratio over the scale; floating point is not modelled.
- `Surface::render` and the generic `Graphics` object types: only the EVE surface's own drawing primitives (`fillRect`, `setPixel`, the state setters, `reset`, `present`) are modelled. A colour is given as its (alpha, red, green, blue) channels, with no RGB565 conversion.
- `display.getScale()`: the surface takes the scale factor as a constructor parameter.
- `tools/test.py`, `tools/gen.py`, `tools/dump-csv.py`: they are scripts over the command tables and are not modelled.
- `CpCmd.unpack`: only packing and layout of co-processor commands are modelled.
- String encoding: `eve.py` encodes `str` arguments as UTF-8. The model takes a string argument as its bytes.
- The exception raised for an argument of the wrong Python type is one `TypeError` in the model, whatever the Python library would raise.
- The `assert isinstance(description, str)` of `initialise`, and Python object aliasing between `Param` instances shared by several commands.
- The `DL`, `CMD` and `OPT` `IntEnum` classes of `eve.py`: opcodes are plain integers in the tables.
- EveCommands.GetCommand: takes a natural number, so negative Python integers are outside the model.
- EveCommands.Decodable: it is not proved for every table entry, nor is `Packable`. `DlWordDecodes` states its conclusion for any command that satisfies them.
- `CpCmd.pack` of a `DataBlock` parameter raises `AttributeError` in every case, and the model keeps that error; the data path is not modelled further.
- `CMD_SYNC`: `EVE.h` defines it, but `eve.py` has no entry for it. `SyncAbsent` states that no co-processor entry has its code.
- MediaFeed.FreeSpace: its contract only bounds the result below 2^32. The case analysis is `FreeSpaceCases`, which requires the window to be smaller than 2^32 - 8.
- AudioFeed.AudioFifo.constructor: the write offset starts at 0, where the C++ leaves it uninitialised until `play` sets it.
- MediaFeed.MediaFifo.constructor: the write offset starts at 0, where MediaFifo.h line 39 leaves it uninitialised; `begin` sets it to 0 before the first refill.
- Coproc emitters: padding bytes and unused structure bytes are modelled as zero, where the C++ leaves them as whatever the buffer held.

## Findings

| source | as written | input that shows it | evidently intended | confidence | as-written member | corrected member |
|---|---|---|---|---|---|---|
| src/include/Graphics/EVE/EVE.h:767-777 | `BITMAP_TRANSFORM_C` and `_F` mask their parameter with `0x1FFFF` (17 bits) | `val = 0xFFFFFF00`: the word keeps `0x1FF00` where `command_defs.h` keeps `0xFFFF00` | the 24-bit parameter, as the `command_defs.h` builders store it | not executed | EveInline.TransformMaskCounterexample | EveInline.BITMAP_TRANSFORM_C24 |
| src/Surface.cpp:229-234 | `reset()` starts a new display list but keeps the cached context | a frame ends with `fillRect` (GP_RECTS cached), then `reset()`, then `fillRect`: no BEGIN is sent and the vertices arrive with no primitive selected | the cache reset to its defaults with the display list | not executed | DisplayState.StaleContextAfterReset | Surfaces.EveSurface.ResetFrame |
| tools/eve.py:266-267 | 2-byte parameters pack with `'<H'` even when signed | a TEXT command with `x = -1`: `struct.pack('<H', -1)` raises `struct.error`; and `ff ff` unpacks as 65535 | `'<h'` for signed 16-bit parameters | not executed | EveTool.NegativeInt16Rejected | EveTool.PackUnpack |
| tools/eve.py:599-610 | `CpCmd.pack` calls the 2-byte `'<H'` packer for every signed 16-bit coordinate | any command whose first parameter is a signed 16-bit coordinate, such as TEXT with `x = -1`: the whole packing fails with `struct.error` | the command image with the coordinate in two's complement | not executed | EveTool.NegativeFirstRejected | EveTool.CpPackLayout |
