// The EVE rendering surface of src/include/Graphics/EVE/Surface.h and
// src/Surface.cpp. The surface appends display-list words to its command
// buffer and keeps a cache `context` of the graphics state (primitive,
// colour, point size) so that a state command is only sent when it changes.
//
// Besides the bytes, a surface keeps the ghost list `words` of the
// display-list words in its buffer. The cache is `Coherent` when it agrees
// with the state the device reaches at the end of those words (module
// DisplayState).
module Surfaces {
  import opened Bytes
  import opened Eve
  import opened Transport
  import opened CommandBuffers
  import opened DisplayState
  import Coproc

  /** Appends the word of one command, through the emitter of CommandBuffer.h that builds it. */
  method Emit(cmd: CommandBuffer, c: Cmd)
    requires cmd.Valid() && Room(cmd.size, 4)
    modifies cmd, cmd.buffer
    ensures cmd.Valid() && cmd.Contents() == old(cmd.Contents()) + Le32(Word(c))
  {
    match c {
      case DlstartCmd =>
        cmd.Dlstart();
        WordImage(Coproc.Dlstart());
      case VertexFormatCmd(frac) => cmd.VertexFormat(frac);
      case BeginCmd(prim) => cmd.Begin(prim);
      case EndCmd => cmd.End();
      case ColorACmd(alpha) => cmd.ColorA(alpha);
      case ColorRgbCmd(red, green, blue) => cmd.ColorRgb(red, green, blue);
      case PointSizeCmd(size) => cmd.PointSize(size as bv32);
      case VertexCmd(q) => cmd.Vertex2fPoint(q);
      case DisplayCmd => cmd.Display();
      case SwapCmd =>
        cmd.Swap();
        WordImage(Coproc.Swap());
    }
  }

  /** Two words appended one by one are the pair appended. */
  lemma {:induction false} AppendPair(s: seq<bv32>, a: bv32, b: bv32)
    ensures s + [a] + [b] == s + [a, b]
  {
    assert [a] + [b] == [a, b];
  }

  /** `Surface::Stat`. */
  datatype Usage = Usage(used: nat, available: nat)

  class EveSurface {
    const display: EveDisplay
    const cmd: CommandBuffer
    /** `display.getScale()`, which is not part of this model: a fixed factor. */
    const scale: bv16
    var context: Context
    /** The display-list words in `cmd` since the last reset. */
    ghost var words: seq<bv32>

    ghost predicate Valid()
      reads this, cmd, cmd.buffer
    {
      cmd.Valid() && cmd.Contents() == Words(words)
    }

    ghost predicate Coherent()
      reads this
    {
      CacheCoherent(words, context)
    }

    /** The constructor: default context, then `reset()`. */
    constructor (display: EveDisplay, scale: bv16)
      ensures Valid() && Coherent() && fresh(cmd) && fresh(cmd.buffer)
      ensures this.display == display && this.scale == scale
      ensures context == DefaultContext && words == WordsOf(Preamble)
    {
      this.display := display;
      this.scale := scale;
      cmd := new CommandBuffer();
      context := DefaultContext;
      words := [];
      new;
      Reset();
      PreambleCoherent([]);
      assert [] + WordsOf(Preamble) == WordsOf(Preamble);
    }

    /** `stat()`: bytes used and bytes left in the 4 KiB command buffer. */
    function Stat(): (st: Usage)
      reads this, cmd, cmd.buffer
      requires Valid()
      ensures st.used == cmd.Length() == 4 * |words|
      ensures st.used + st.available == EVE_CMDFIFO_SIZE
    {
      Usage(cmd.Length(), EVE_CMDFIFO_SIZE - cmd.Length())
    }

    /** Appends the word of one command to `cmd`. */
    method Send(c: Cmd)
      requires Valid() && Room(cmd.size, 4)
      modifies this`words, cmd, cmd.buffer
      ensures Valid() && words == old(words) + [Word(c)] && cmd.size == old(cmd.size) + 4
    {
      Emit(cmd, c);
      WordsSnoc(words, Word(c));
      words := words + [Word(c)];
    }

    /** `reset()`: empty the buffer, then CMD_DLSTART and VERTEX_FORMAT(0). The cache is left as it was. */
    method Reset()
      requires Valid()
      modifies this`words, cmd, cmd.buffer
      ensures Valid() && context == old(context) && words == WordsOf(Preamble)
      ensures cmd.Contents() == [0x00, 0xFF, 0xFF, 0xFF, 0x00, 0x00, 0x00, 0x27]
    {
      cmd.Reset();
      words := [];
      Send(DlstartCmd);
      Send(VertexFormatCmd(0));
      assert words == WordsOf(Preamble) by {
        assert Preamble[..1] == [DlstartCmd];
      }
      PreambleImage();
    }

    /** `reset()` as evidently intended: the cache returns to the defaults of the fresh display list. */
    method ResetFrame()
      requires Valid()
      modifies this, cmd, cmd.buffer
      ensures Valid() && Coherent() && context == DefaultContext && words == WordsOf(Preamble)
    {
      Reset();
      context := DefaultContext;
      PreambleCoherent([]);
      assert [] + WordsOf(Preamble) == WordsOf(Preamble);
    }

    method Begin(prim: bv32)
      requires Valid() && Room(cmd.size, 4)
      modifies this, cmd, cmd.buffer
      ensures Valid() && context == old(context).(prim := prim)
      ensures words == old(words) + WordsOf(BeginCmds(old(context).prim, prim))
      ensures cmd.size <= old(cmd.size) + 4
    {
      if context.prim != prim {
        Send(BeginCmd(prim));
        context := context.(prim := prim);
      }
    }

    method End()
      requires Valid() && Room(cmd.size, 4)
      modifies this, cmd, cmd.buffer
      ensures Valid() && context == old(context).(prim := GP_NONE)
      ensures words == old(words) + WordsOf(EndCmds(old(context).prim))
    {
      if context.prim != GP_NONE {
        Send(EndCmd);
        context := context.(prim := GP_NONE);
      }
    }

    method SetPointSize(size: bv16)
      requires Valid() && Room(cmd.size, 4)
      modifies this, cmd, cmd.buffer
      ensures Valid() && context == old(context).(pointSize := size)
      ensures words == old(words) + WordsOf(PointSizeCmds(old(context).pointSize, size))
    {
      if context.pointSize != size {
        Send(PointSizeCmd(size));
        context := context.(pointSize := size);
      }
    }

    /** `setColor(Color)`. */
    method SetColor(c: Color)
      requires Valid() && Room(cmd.size, 8)
      modifies this, cmd, cmd.buffer
      ensures Valid() && context == old(context).(color := c)
      ensures words == old(words) + WordsOf(ColorCmds(old(context).color, c))
      ensures cmd.size <= old(cmd.size) + 8
    {
      if context.color == c {
        return;
      }
      ghost var words0 := words;
      var cur := context.color;
      if c.alpha != cur.alpha {
        Send(ColorACmd(c.alpha));
      }
      ghost var words1 := words;
      if (c.red, c.green, c.blue) != (cur.red, cur.green, cur.blue) {
        Send(ColorRgbCmd(c.red, c.green, c.blue));
      }
      ColorSends(words0, words1, words, cur, c);
      context := context.(color := c);
    }

    method Vertex(pt: Point)
      requires Valid() && Room(cmd.size, 4)
      modifies this`words, cmd, cmd.buffer
      ensures Valid() && words == old(words) + [Word(VertexCmd(Scaled(pt, scale)))]
      ensures cmd.size == old(cmd.size) + 4
    {
      Send(VertexCmd(Scaled(pt, scale)));
    }

    /** `fillRect(color, rect)`, with the rectangle given by its two corners. */
    method FillRect(c: Color, topLeft: Point, bottomRight: Point) returns (ok: bool)
      requires Valid() && Room(cmd.size, 20)
      modifies this, cmd, cmd.buffer
      ensures ok && Valid() && context == old(context).(color := c, prim := GP_RECTS)
      ensures words == old(words) + WordsOf(ColorCmds(old(context).color, c)) + WordsOf(BeginCmds(old(context).prim, GP_RECTS))
                       + [Word(VertexCmd(Scaled(topLeft, scale))), Word(VertexCmd(Scaled(bottomRight, scale)))]
    {
      SetColor(c);
      Begin(GP_RECTS);
      ghost var w2 := words;
      Vertex(topLeft);
      Vertex(bottomRight);
      AppendPair(w2, Word(VertexCmd(Scaled(topLeft, scale))), Word(VertexCmd(Scaled(bottomRight, scale))));
      ok := true;
    }

    /** `setPixel(color, pt)`: one point, and no END. */
    method SetPixel(c: Color, pt: Point) returns (ok: bool)
      requires Valid() && Room(cmd.size, 16)
      modifies this, cmd, cmd.buffer
      ensures ok && Valid() && context == old(context).(color := c, prim := GP_POINTS)
      ensures words == old(words) + WordsOf(ColorCmds(old(context).color, c)) + WordsOf(BeginCmds(old(context).prim, GP_POINTS))
                       + [Word(VertexCmd(Scaled(pt, scale)))]
    {
      SetColor(c);
      Begin(GP_POINTS);
      Vertex(pt);
      ok := true;
    }

    /** `present()`: DISPLAY and SWAP are appended and the whole buffer goes to REG_CMDB_WRITE. */
    method Present() returns (ok: bool)
      requires Valid() && Room(cmd.size, 8)
      modifies this`words, cmd, cmd.buffer, display
      ensures ok && Valid() && context == old(context)
      ensures words == old(words) + [Word(DisplayCmd), Word(SwapCmd)]
      ensures cmd.Length() == old(cmd.Length()) + 8
      ensures display.log == old(display.log) + [Block(REG_CMDB_WRITE, cmd.Contents())]
    {
      Send(DisplayCmd);
      Send(SwapCmd);
      display.Write(REG_CMDB_WRITE, cmd.Contents());
      ok := true;
    }
  }
}
