// What the device's display-list engine makes of the words a surface sends
// (src/include/Graphics/EVE/Surface.h and src/Surface.cpp keep a cache of
// this state). `Step` reads one word: CMD_DLSTART starts a fresh display
// list with the default graphics state, BEGIN/END select the primitive,
// COLOR_RGB/COLOR_A and POINT_SIZE set the colour and point size, and every
// other word leaves that state alone. `Word` is the 32-bit word each command
// of the surface is sent as. A cache is `CacheCoherent` with a list of words
// when it agrees with the state the device reaches at their end.
module DisplayState {
  import opened Bytes
  import opened Eve
  import opened CommandBuffers
  import DisplayList
  import EveInline

  /** `EVE::GP_NONE`: no primitive selected. EVE.h does not define it; 0 is taken, a value no BEGIN primitive uses. */
  const GP_NONE: bv32 := 0

  /** `EveSurface::Context`: the cached primitive, colour and point size. */
  datatype Context = Context(prim: bv32, color: Color, pointSize: bv16)

  /** The defaults of Surface.h lines 44-48. */
  const DefaultContext := Context(GP_NONE, White, 16)

  /** The graphics state as the device holds it: BEGIN's 4-bit primitive, a colour and POINT_SIZE's 13 bits. */
  datatype GraphicsState = GraphicsState(prim: bv32, color: Color, pointSize: bv32)

  /** The state a display list starts from. */
  const Initial := GraphicsState(GP_NONE, White, 16)

  /** The device state a cache entry stands for, given the widths of the command fields. */
  function View(ctx: Context): (s: GraphicsState)
    ensures s.color == ctx.color
  {
    GraphicsState(ctx.prim & 0xF, ctx.color, (ctx.pointSize as bv32) & 0x1FFF)
  }

  /** The co-processor word CMD_DLSTART. */
  const DlstartWord: bv32 := MakeCoprocCmdWord(CMD_DLSTART)

  /** What the device does with one word. */
  function Step(s: GraphicsState, w: bv32): GraphicsState
  {
    if w == DlstartWord then Initial
    else if Opcode(w) == DL_BEGIN then s.(prim := Bits(w, 0, 4))
    else if Opcode(w) == DL_END then s.(prim := GP_NONE)
    else if Opcode(w) == DL_COLOR_RGB then
      s.(color := s.color.(red := Bits(w, 16, 8) as byte, green := Bits(w, 8, 8) as byte, blue := Bits(w, 0, 8) as byte))
    else if Opcode(w) == DL_COLOR_A then s.(color := s.color.(alpha := Bits(w, 0, 8) as byte))
    else if Opcode(w) == DL_POINT_SIZE then s.(pointSize := Bits(w, 0, 13))
    else s
  }

  /** The state after the words `ws`, in order. */
  function Run(s: GraphicsState, ws: seq<bv32>): GraphicsState
    decreases |ws|
  {
    if ws == [] then s else Step(Run(s, ws[..|ws| - 1]), ws[|ws| - 1])
  }

  /** The commands the surface sends. */
  datatype Cmd =
    | DlstartCmd
    | VertexFormatCmd(frac: bv32)
    | BeginCmd(prim: bv32)
    | EndCmd
    | ColorACmd(alpha: byte)
    | ColorRgbCmd(red: byte, green: byte, blue: byte)
    | PointSizeCmd(size: bv16)
    | VertexCmd(q: Point)
    | DisplayCmd
    | SwapCmd

  /** The word each command is sent as, by the emitters of CommandBuffer.h. */
  function Word(c: Cmd): bv32
  {
    match c
    case DlstartCmd => DlstartWord
    case VertexFormatCmd(frac) => DisplayList.VertexFormat(frac)
    case BeginCmd(prim) => DisplayList.Begin(prim)
    case EndCmd => DisplayList.End()
    case ColorACmd(alpha) => DisplayList.ColorA(alpha)
    case ColorRgbCmd(red, green, blue) => EveInline.COLOR_RGB(red, green, blue)
    case PointSizeCmd(size) => DisplayList.PointSize(size as bv32)
    case VertexCmd(q) => EveInline.VERTEX2F(q.x, q.y)
    case DisplayCmd => DisplayList.Display()
    case SwapCmd => MakeCoprocCmdWord(CMD_SWAP)
  }

  function WordsOf(cs: seq<Cmd>): (ws: seq<bv32>)
    ensures |ws| == |cs|
    decreases |cs|
  {
    if cs == [] then [] else WordsOf(cs[..|cs| - 1]) + [Word(cs[|cs| - 1])]
  }

  lemma {:induction false} WordsOfOne(c: Cmd)
    ensures WordsOf([c]) == [Word(c)]
  {
    assert [c][..0] == [];
  }

  /** What a command does to the graphics state, read off its arguments. */
  function Effect(s: GraphicsState, c: Cmd): GraphicsState
  {
    match c
    case DlstartCmd => Initial
    case BeginCmd(prim) => s.(prim := prim & 0xF)
    case EndCmd => s.(prim := GP_NONE)
    case ColorACmd(alpha) => s.(color := s.color.(alpha := alpha))
    case ColorRgbCmd(red, green, blue) => s.(color := s.color.(red := red, green := green, blue := blue))
    case PointSizeCmd(size) => s.(pointSize := (size as bv32) & 0x1FFF)
    case _ => s
  }

  function Apply(s: GraphicsState, cs: seq<Cmd>): GraphicsState
    decreases |cs|
  {
    if cs == [] then s else Effect(Apply(s, cs[..|cs| - 1]), cs[|cs| - 1])
  }

  /** A word other than CMD_DLSTART is read by its opcode, the top byte. */
  lemma {:induction false} StepByOpcode(s: GraphicsState, w: bv32)
    requires Opcode(w) < 0xFF
    ensures Step(s, w) == (
      if Opcode(w) == DL_BEGIN then s.(prim := Bits(w, 0, 4))
      else if Opcode(w) == DL_END then s.(prim := GP_NONE)
      else if Opcode(w) == DL_COLOR_RGB then
        s.(color := s.color.(red := Bits(w, 16, 8) as byte, green := Bits(w, 8, 8) as byte, blue := Bits(w, 0, 8) as byte))
      else if Opcode(w) == DL_COLOR_A then s.(color := s.color.(alpha := Bits(w, 0, 8) as byte))
      else if Opcode(w) == DL_POINT_SIZE then s.(pointSize := Bits(w, 0, 13))
      else s)
  {
    assert Opcode(DlstartWord) == 0xFF;
  }

  /** A vertex word has 01 in its top two bits, so no state command has its opcode. */
  lemma {:induction false} StepVertexWord(s: GraphicsState, w: bv32)
    requires Opcode(w) & 0xC0 == DL_VERTEX2F
    ensures Step(s, w) == s
  {
    StepByOpcode(s, w);
  }

  /** The device, decoding the word a command is sent as, does what the command says. */
  lemma {:induction false} StepWord(s: GraphicsState, c: Cmd)
    ensures Step(s, Word(c)) == Effect(s, c)
  {
    if c.BeginCmd? {
      StepBeginWord(s, c.prim);
    } else {
      StepWordNotBegin(s, c);
    }
  }

  lemma {:induction false} StepWordNotBegin(s: GraphicsState, c: Cmd)
    requires !c.BeginCmd?
    ensures Step(s, Word(c)) == Effect(s, c)
  {
    if c.EndCmd? {
      StepEndWord(s);
    } else {
      StepWordNoPrimitive(s, c);
    }
  }

  lemma {:induction false} StepWordNoPrimitive(s: GraphicsState, c: Cmd)
    requires !c.BeginCmd? && !c.EndCmd?
    ensures Step(s, Word(c)) == Effect(s, c)
  {
    if c.PointSizeCmd? {
      StepPointSizeWord(s, c.size);
    } else {
      StepWordNoSize(s, c);
    }
  }

  lemma {:induction false} StepWordNoSize(s: GraphicsState, c: Cmd)
    requires !c.BeginCmd? && !c.EndCmd? && !c.PointSizeCmd?
    ensures Step(s, Word(c)) == Effect(s, c)
  {
    if c.ColorACmd? {
      StepColorAWord(s, c.alpha);
    } else {
      StepWordNoAlpha(s, c);
    }
  }

  lemma {:induction false} StepWordNoAlpha(s: GraphicsState, c: Cmd)
    requires !c.BeginCmd? && !c.EndCmd? && !c.PointSizeCmd? && !c.ColorACmd?
    ensures Step(s, Word(c)) == Effect(s, c)
  {
    if c.ColorRgbCmd? {
      StepColorRgbWord(s, c.red, c.green, c.blue);
    } else {
      StepNeutralWord(s, c);
    }
  }

  /** The commands that leave the graphics state alone, and CMD_DLSTART, which restarts it. */
  lemma {:induction false} StepNeutralWord(s: GraphicsState, c: Cmd)
    requires !(c.BeginCmd? || c.EndCmd? || c.PointSizeCmd? || c.ColorACmd? || c.ColorRgbCmd?)
    ensures Step(s, Word(c)) == Effect(s, c)
  {
    match c
    case DlstartCmd =>
    case VertexFormatCmd(frac) =>
      assert Word(c) == DisplayList.VertexFormat(frac);
      StepVertexFormat(s, frac);
    case VertexCmd(q) =>
      assert Word(c) == EveInline.VERTEX2F(q.x, q.y);
      StepVertexWord(s, EveInline.VERTEX2F(q.x, q.y));
    case DisplayCmd =>
      assert Word(c) == DisplayList.Display();
      StepDisplay(s);
    case SwapCmd => assert MakeCoprocCmdWord(CMD_SWAP) == 0xFFFFFF01;
  }

  lemma {:induction false} StepBeginWord(s: GraphicsState, prim: bv32)
    ensures Step(s, Word(BeginCmd(prim))) == Effect(s, BeginCmd(prim))
  {
    assert Word(BeginCmd(prim)) == DisplayList.Begin(prim);
    StepBegin(s, prim);
  }

  lemma {:induction false} StepEndWord(s: GraphicsState)
    ensures Step(s, Word(EndCmd)) == Effect(s, EndCmd)
  {
    assert Word(EndCmd) == DisplayList.End();
    StepEnd(s);
  }

  lemma {:induction false} StepColorAWord(s: GraphicsState, alpha: byte)
    ensures Step(s, Word(ColorACmd(alpha))) == Effect(s, ColorACmd(alpha))
  {
    assert Word(ColorACmd(alpha)) == DisplayList.ColorA(alpha);
    StepColorA(s, alpha);
  }

  lemma {:induction false} StepColorRgbWord(s: GraphicsState, red: byte, green: byte, blue: byte)
    ensures Step(s, Word(ColorRgbCmd(red, green, blue))) == Effect(s, ColorRgbCmd(red, green, blue))
  {
    assert Word(ColorRgbCmd(red, green, blue)) == EveInline.COLOR_RGB(red, green, blue);
    StepColorRgb(s, red, green, blue);
  }

  lemma {:induction false} StepPointSizeWord(s: GraphicsState, size: bv16)
    ensures Step(s, Word(PointSizeCmd(size))) == Effect(s, PointSizeCmd(size))
  {
    assert Word(PointSizeCmd(size)) == DisplayList.PointSize(size as bv32);
    StepPointSize(s, size as bv32);
  }

  // What the device makes of each encoder's word, read off the encoder's fields.

  lemma {:induction false} StepVertexFormat(s: GraphicsState, frac: bv32)
    ensures Step(s, DisplayList.VertexFormat(frac)) == s
  {
    StepByOpcode(s, DisplayList.VertexFormat(frac));
  }

  lemma {:induction false} StepDisplay(s: GraphicsState)
    ensures Step(s, DisplayList.Display()) == s
  {
    StepByOpcode(s, DisplayList.Display());
  }

  lemma {:induction false} StepBegin(s: GraphicsState, prim: bv32)
    ensures Step(s, DisplayList.Begin(prim)) == s.(prim := prim & 0xF)
  {
    StepByOpcode(s, DisplayList.Begin(prim));
  }

  lemma {:induction false} StepEnd(s: GraphicsState)
    ensures Step(s, DisplayList.End()) == s.(prim := GP_NONE)
  {
    StepByOpcode(s, DisplayList.End());
  }

  lemma {:induction false} StepColorA(s: GraphicsState, alpha: byte)
    ensures Step(s, DisplayList.ColorA(alpha)) == s.(color := s.color.(alpha := alpha))
  {
    var w := DisplayList.ColorA(alpha);
    StepByOpcode(s, w);
    assert Bits(w, 0, 8) as byte == alpha;
  }

  lemma {:induction false} StepColorRgb(s: GraphicsState, red: byte, green: byte, blue: byte)
    ensures Step(s, EveInline.COLOR_RGB(red, green, blue)) == s.(color := s.color.(red := red, green := green, blue := blue))
  {
    var w := DisplayList.ColorRgb(red, green, blue);
    assert EveInline.COLOR_RGB(red, green, blue) == w;
    StepByOpcode(s, w);
    assert Bits(w, 16, 8) as byte == red && Bits(w, 8, 8) as byte == green && Bits(w, 0, 8) as byte == blue;
  }

  lemma {:induction false} StepPointSize(s: GraphicsState, size: bv32)
    ensures Step(s, DisplayList.PointSize(size)) == s.(pointSize := size & 0x1FFF)
  {
    StepByOpcode(s, DisplayList.PointSize(size));
  }

  /** Running the words of a command list is applying the commands. */
  lemma {:induction false} RunWords(s: GraphicsState, cs: seq<Cmd>)
    ensures Run(s, WordsOf(cs)) == Apply(s, cs)
    decreases |cs|
  {
    if cs != [] {
      var ws := WordsOf(cs);
      assert ws[..|ws| - 1] == WordsOf(cs[..|cs| - 1]);
      RunWords(s, cs[..|cs| - 1]);
      StepWord(Apply(s, cs[..|cs| - 1]), cs[|cs| - 1]);
    }
  }

  lemma {:induction false} ApplyAppend(s: GraphicsState, a: seq<Cmd>, b: seq<Cmd>)
    ensures Apply(s, a + b) == Apply(Apply(s, a), b)
    decreases |b|
  {
    if b == [] {
      assert a + b == a;
    } else {
      assert (a + b)[..|a + b| - 1] == a + b[..|b| - 1];
      ApplyAppend(s, a, b[..|b| - 1]);
    }
  }

  // --- The commands the cache emits, and what they do to the device. ---

  /** What `begin(p)` sends when `cur` is cached. */
  function BeginCmds(cur: bv32, p: bv32): seq<Cmd>
  {
    if cur != p then [BeginCmd(p)] else []
  }

  /** What `end()` sends when `cur` is cached. */
  function EndCmds(cur: bv32): seq<Cmd>
  {
    if cur != GP_NONE then [EndCmd] else []
  }

  /** What `setPointSize(size)` sends when `cur` is cached. */
  function PointSizeCmds(cur: bv16, size: bv16): seq<Cmd>
  {
    if cur != size then [PointSizeCmd(size)] else []
  }

  /**
   * What `setColor(c)` sends when `cur` is cached: nothing for an equal
   * colour, else COLOR_A when the alpha differs (`packed.alpha`) and then
   * COLOR_RGB when the 24 colour bits differ (`packed.value`).
   */
  function ColorCmds(cur: Color, c: Color): seq<Cmd>
  {
    if cur == c then [] else AlphaCmds(cur, c) + RgbCmds(cur, c)
  }

  function AlphaCmds(cur: Color, c: Color): seq<Cmd>
  {
    if cur.alpha != c.alpha then [ColorACmd(c.alpha)] else []
  }

  function RgbCmds(cur: Color, c: Color): seq<Cmd>
  {
    if (cur.red, cur.green, cur.blue) != (c.red, c.green, c.blue) then [ColorRgbCmd(c.red, c.green, c.blue)] else []
  }

  /** `vertex(pt)` multiplies both coordinates by the display scale, in 16-bit arithmetic. */
  function Scaled(pt: Point, scale: bv16): Point
  {
    Point(pt.x * scale, pt.y * scale)
  }

  /** What `reset()` leaves in the buffer. */
  const Preamble: seq<Cmd> := [DlstartCmd, VertexFormatCmd(0)]

  lemma {:induction false} ApplyOne(s: GraphicsState, c: Cmd)
    ensures Apply(s, [c]) == Effect(s, c)
  {
    assert [c][..0] == [];
  }

  /** `begin`'s commands move the device from the cached state to the one with the requested primitive; none is sent iff it is cached. */
  lemma {:induction false} BeginCmdsSync(ctx: Context, p: bv32)
    ensures Apply(View(ctx), BeginCmds(ctx.prim, p)) == View(ctx.(prim := p))
    ensures BeginCmds(ctx.prim, p) == [] <==> ctx.prim == p
  {
    if ctx.prim != p {
      ApplyOne(View(ctx), BeginCmd(p));
    }
    ViewPrim(ctx, p);
  }

  /** `end`'s commands leave no primitive selected; none is sent iff none was cached. */
  lemma {:induction false} EndCmdsSync(ctx: Context)
    ensures Apply(View(ctx), EndCmds(ctx.prim)) == View(ctx.(prim := GP_NONE))
    ensures EndCmds(ctx.prim) == [] <==> ctx.prim == GP_NONE
  {
    if ctx.prim != GP_NONE {
      ApplyOne(View(ctx), EndCmd);
    }
    ViewPrim(ctx, GP_NONE);
  }

  lemma {:induction false} PointSizeCmdsSync(ctx: Context, size: bv16)
    ensures Apply(View(ctx), PointSizeCmds(ctx.pointSize, size)) == View(ctx.(pointSize := size))
    ensures PointSizeCmds(ctx.pointSize, size) == [] <==> ctx.pointSize == size
  {
    if ctx.pointSize != size {
      ApplyOne(View(ctx), PointSizeCmd(size));
    }
    ViewPointSize(ctx, size);
  }

  /** `setColor`'s commands give the device exactly the new colour; none is sent iff it is cached. */
  lemma {:induction false} ColorCmdsSync(ctx: Context, c: Color)
    ensures Apply(View(ctx), ColorCmds(ctx.color, c)) == View(ctx.(color := c))
    ensures ColorCmds(ctx.color, c) == [] <==> ctx.color == c
  {
    var s, cur := View(ctx), ctx.color;
    if cur != c {
      var a, b := AlphaCmds(cur, c), RgbCmds(cur, c);
      ApplyAppend(s, a, b);
      var s1 := s.(color := cur.(alpha := c.alpha));
      if a != [] {
        ApplyOne(s, ColorACmd(c.alpha));
      }
      assert Apply(s, a) == s1;
      if b != [] {
        ApplyOne(s1, ColorRgbCmd(c.red, c.green, c.blue));
      }
    }
    ViewColor(ctx, c);
  }

  /** The cached primitive is seen by the device in BEGIN's 4 bits. */
  lemma {:induction false} ViewPrim(ctx: Context, p: bv32)
    ensures View(ctx.(prim := p)) == View(ctx).(prim := p & 0xF)
  {
  }

  /** The cached point size is seen by the device in 13 bits. */
  lemma {:induction false} ViewPointSize(ctx: Context, size: bv16)
    ensures View(ctx.(pointSize := size)) == View(ctx).(pointSize := (size as bv32) & 0x1FFF)
  {
  }

  lemma {:induction false} ViewColor(ctx: Context, c: Color)
    ensures View(ctx.(color := c)) == View(ctx).(color := c)
  {
  }

  /**
   * `setColor`'s two optional sends, the alpha word when alpha changes and
   * the colour word when red, green or blue change, append the words of its
   * commands.
   */
  lemma {:induction false} ColorSends(w0: seq<bv32>, w1: seq<bv32>, w2: seq<bv32>, cur: Color, c: Color)
    requires cur != c
    requires w1 == if cur.alpha != c.alpha then w0 + [Word(ColorACmd(c.alpha))] else w0
    requires w2 == if (cur.red, cur.green, cur.blue) != (c.red, c.green, c.blue)
                   then w1 + [Word(ColorRgbCmd(c.red, c.green, c.blue))] else w1
    ensures w2 == w0 + WordsOf(ColorCmds(cur, c))
  {
    ColorWords(w0, cur, c);
    WordsOfOne(ColorACmd(c.alpha));
    WordsOfOne(ColorRgbCmd(c.red, c.green, c.blue));
  }

  /** The words of `setColor`'s commands are those of its alpha part followed by those of its colour part. */
  lemma {:induction false} ColorWords(ws: seq<bv32>, cur: Color, c: Color)
    requires cur != c
    ensures ws + WordsOf(ColorCmds(cur, c)) == ws + WordsOf(AlphaCmds(cur, c)) + WordsOf(RgbCmds(cur, c))
  {
    var a, b := AlphaCmds(cur, c), RgbCmds(cur, c);
    if a == [] {
      assert a + b == b;
      assert WordsOf(a) == [];
    } else if b == [] {
      assert a + b == a;
      assert WordsOf(b) == [];
    } else {
      assert (a + b)[..1] == a;
    }
  }

  /** After the preamble the device is in its initial state, whatever came before. */
  lemma {:induction false} PreambleRestarts(s: GraphicsState)
    ensures Apply(s, Preamble) == Initial
  {
    ApplyAppend(s, [DlstartCmd], [VertexFormatCmd(0)]);
    ApplyOne(s, DlstartCmd);
    ApplyOne(Initial, VertexFormatCmd(0));
  }

  /** Running words one list after another. */
  lemma {:induction false} RunAppend(s: GraphicsState, a: seq<bv32>, b: seq<bv32>)
    ensures Run(s, a + b) == Run(Run(s, a), b)
    decreases |b|
  {
    if b == [] {
      assert a + b == a;
    } else {
      assert (a + b)[..|a + b| - 1] == a + b[..|b| - 1];
      RunAppend(s, a, b[..|b| - 1]);
    }
  }

  /** Words already in the buffer followed by the words of some commands: the commands act on the state the buffer left. */
  lemma {:induction false} RunThenCmds(s: GraphicsState, ws: seq<bv32>, cs: seq<Cmd>)
    ensures Run(s, ws + WordsOf(cs)) == Apply(Run(s, ws), cs)
  {
    RunAppend(s, ws, WordsOf(cs));
    RunWords(Run(s, ws), cs);
  }

  /** The cache `ctx` agrees with the state the device reaches at the end of the display-list words `ws`. */
  predicate CacheCoherent(ws: seq<bv32>, ctx: Context)
  {
    Run(Initial, ws) == View(ctx)
  }

  /** The bytes of the preamble: CMD_DLSTART (0xffffff00) and VERTEX_FORMAT(0) (0x27000000), little-endian. */
  lemma PreambleImage()
    ensures Words(WordsOf(Preamble)) == [0x00, 0xFF, 0xFF, 0xFF, 0x00, 0x00, 0x00, 0x27]
  {
    assert Preamble[..1] == [DlstartCmd];
    assert DlstartWord == 0xFFFFFF00 && DisplayList.VertexFormat(0) == 0x27000000;
  }

  /** A fresh display list with the default cache is coherent, whatever the words before it. */
  lemma {:induction false} PreambleCoherent(ws: seq<bv32>)
    ensures CacheCoherent(ws + WordsOf(Preamble), DefaultContext)
  {
    RunThenCmds(Initial, ws, Preamble);
    PreambleRestarts(Run(Initial, ws));
  }

  /**
   * The cache left in place by `reset()` after a frame drawn with rectangles
   * does not match the fresh display list: the next `fillRect` finds GP_RECTS
   * cached, sends no BEGIN, and the device gets its vertices with no
   * primitive selected.
   */
  lemma StaleContextAfterReset()
    ensures var ctx := DefaultContext.(prim := GP_RECTS);
      !CacheCoherent(WordsOf(Preamble), ctx)
      && BeginCmds(ctx.prim, GP_RECTS) == []
      && Run(Initial, WordsOf(Preamble) + WordsOf(BeginCmds(ctx.prim, GP_RECTS))).prim == GP_NONE
  {
    PreambleCoherent([]);
    assert [] + WordsOf(Preamble) == WordsOf(Preamble);
    assert WordsOf(Preamble) + WordsOf([]) == WordsOf(Preamble);
  }

  lemma {:induction false} BeginKeepsCoherent(ws: seq<bv32>, ctx: Context, p: bv32)
    requires CacheCoherent(ws, ctx)
    ensures CacheCoherent(ws + WordsOf(BeginCmds(ctx.prim, p)), ctx.(prim := p))
  {
    RunThenCmds(Initial, ws, BeginCmds(ctx.prim, p));
    BeginCmdsSync(ctx, p);
  }

  lemma {:induction false} EndKeepsCoherent(ws: seq<bv32>, ctx: Context)
    requires CacheCoherent(ws, ctx)
    ensures CacheCoherent(ws + WordsOf(EndCmds(ctx.prim)), ctx.(prim := GP_NONE))
  {
    RunThenCmds(Initial, ws, EndCmds(ctx.prim));
    EndCmdsSync(ctx);
  }

  lemma {:induction false} PointSizeKeepsCoherent(ws: seq<bv32>, ctx: Context, size: bv16)
    requires CacheCoherent(ws, ctx)
    ensures CacheCoherent(ws + WordsOf(PointSizeCmds(ctx.pointSize, size)), ctx.(pointSize := size))
  {
    RunThenCmds(Initial, ws, PointSizeCmds(ctx.pointSize, size));
    PointSizeCmdsSync(ctx, size);
  }

  lemma {:induction false} ColorKeepsCoherent(ws: seq<bv32>, ctx: Context, c: Color)
    requires CacheCoherent(ws, ctx)
    ensures CacheCoherent(ws + WordsOf(ColorCmds(ctx.color, c)), ctx.(color := c))
  {
    RunThenCmds(Initial, ws, ColorCmds(ctx.color, c));
    ColorCmdsSync(ctx, c);
  }

  /** Vertices, DISPLAY and SWAP leave the graphics state, and so the cache, as they were. */
  lemma {:induction false} NeutralKeepsCoherent(ws: seq<bv32>, ctx: Context, cs: seq<Cmd>)
    requires CacheCoherent(ws, ctx)
    requires forall i :: 0 <= i < |cs| ==> cs[i].VertexCmd? || cs[i].DisplayCmd? || cs[i].SwapCmd?
    ensures CacheCoherent(ws + WordsOf(cs), ctx)
  {
    RunThenCmds(Initial, ws, cs);
    NeutralApply(Run(Initial, ws), cs);
  }

  lemma {:induction false} NeutralApply(s: GraphicsState, cs: seq<Cmd>)
    requires forall i :: 0 <= i < |cs| ==> cs[i].VertexCmd? || cs[i].DisplayCmd? || cs[i].SwapCmd?
    ensures Apply(s, cs) == s
    decreases |cs|
  {
    if cs != [] {
      NeutralApply(s, cs[..|cs| - 1]);
    }
  }

  /**
   * `fillRect` on a coherent cache leaves it coherent, and the device is
   * drawing rectangles in the requested colour when the two vertices arrive.
   */
  lemma {:induction false} FillRectDraws(ws: seq<bv32>, ctx: Context, c: Color, q1: Point, q2: Point)
    requires CacheCoherent(ws, ctx)
    ensures var ws1 := ws + WordsOf(ColorCmds(ctx.color, c)) + WordsOf(BeginCmds(ctx.prim, GP_RECTS));
      var ctx1 := ctx.(color := c, prim := GP_RECTS);
      Run(Initial, ws1).prim == GP_RECTS && Run(Initial, ws1).color == c
      && CacheCoherent(ws1 + WordsOf([VertexCmd(q1), VertexCmd(q2)]), ctx1)
  {
    ColorKeepsCoherent(ws, ctx, c);
    BeginKeepsCoherent(ws + WordsOf(ColorCmds(ctx.color, c)), ctx.(color := c), GP_RECTS);
    var ws1 := ws + WordsOf(ColorCmds(ctx.color, c)) + WordsOf(BeginCmds(ctx.prim, GP_RECTS));
    NeutralKeepsCoherent(ws1, ctx.(color := c, prim := GP_RECTS), [VertexCmd(q1), VertexCmd(q2)]);
  }

  /** `setPixel` on a coherent cache leaves it coherent, and the device is drawing points in the requested colour. */
  lemma {:induction false} SetPixelDraws(ws: seq<bv32>, ctx: Context, c: Color, q: Point)
    requires CacheCoherent(ws, ctx)
    ensures var ws1 := ws + WordsOf(ColorCmds(ctx.color, c)) + WordsOf(BeginCmds(ctx.prim, GP_POINTS));
      var ctx1 := ctx.(color := c, prim := GP_POINTS);
      Run(Initial, ws1).prim == GP_POINTS && Run(Initial, ws1).color == c
      && CacheCoherent(ws1 + WordsOf([VertexCmd(q)]), ctx1)
  {
    ColorKeepsCoherent(ws, ctx, c);
    BeginKeepsCoherent(ws + WordsOf(ColorCmds(ctx.color, c)), ctx.(color := c), GP_POINTS);
    var ws1 := ws + WordsOf(ColorCmds(ctx.color, c)) + WordsOf(BeginCmds(ctx.prim, GP_POINTS));
    NeutralKeepsCoherent(ws1, ctx.(color := c, prim := GP_POINTS), [VertexCmd(q)]);
  }
}
