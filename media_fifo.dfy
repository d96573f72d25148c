// The streaming media FIFO feeder of src/MediaFifo.cpp. The device consumes
// a circular window {fifoAddress, fifoSize}; the host keeps its write offset
// and, each time it learns the device's read offset, pours source bytes into
// the free part of the window in chunks of at most 4092 bytes, alternating
// between two local buffers, and finally publishes its new write offset in
// REG_MEDIAFIFO_WRITE. The timer is the flag `running`; the busy flag of the
// read request is `readBusy`; the deferred completion is a direct call.
module MediaFeed {
  import opened Bytes
  import opened Eve
  import opened Transport

  /** `MediaFifo::Buffer::size` (SPI_MAX_DMA_LEN). */
  const ChunkSize: nat := 4092

  const U32: nat := 0x1_0000_0000

  /**
   * MediaFifo.cpp lines 7-10: `readpos - writepos - 4`, plus `fifoSize` when
   * the reader is not ahead, all in 32-bit `size_t` arithmetic.
   */
  function FreeSpace(rp: nat, wp: nat, size: nat): (space: nat)
    requires rp < U32 && wp < U32 && size < U32
    ensures space < U32
  {
    var s := (rp - wp - 4) % U32;
    if rp <= wp then (s + size) % U32 else s
  }

  /** How far the reader is ahead of the writer around the ring. */
  function Ahead(rp: nat, wp: nat, size: nat): (d: nat)
    requires rp < size && wp < size
    ensures d < size
  {
    if wp <= rp then rp - wp else rp + size - wp
  }

  /**
   * With both offsets inside the window the free space is the ring distance
   * minus the 4-byte gap (the whole window minus 4 when the offsets meet),
   * and it lies in [0, size - 4], exactly when the reader is not 1 to 3 bytes
   * ahead; in that case the unsigned subtraction wraps to at least 2^32 - 3.
   */
  lemma {:induction false} FreeSpaceCases(rp: nat, wp: nat, size: nat)
    requires rp < size && wp < size && 4 <= size < U32 - 8
    ensures var d := Ahead(rp, wp, size);
      var space := FreeSpace(rp, wp, size);
      (space <= size - 4 <==> !(1 <= d <= 3))
      && (d == 0 ==> space == size - 4)
      && (4 <= d ==> space == d - 4)
      && (1 <= d <= 3 ==> space >= U32 - 3)
  {
    var d := Ahead(rp, wp, size);
    var x := rp - wp - 4;
    Wrap32(x);
    if rp <= wp {
      var t := x + U32 + size;
      Wrap32(t);
      assert FreeSpace(rp, wp, size) == t % U32;
      if rp == wp {
        assert t % U32 == size - 4;
      } else {
        assert t == U32 + d - 4;
      }
    } else {
      assert x == d as int - 4;
    }
  }

  /** Reduction mod 2^32 of a value less than one turn away from [0, 2^32). */
  lemma {:induction false} Wrap32(x: int)
    requires -(U32 as int) <= x < 2 * U32
    ensures x % U32 == if x < 0 then x + U32 else if x < U32 then x else x - U32
  {
  }

  /** `begin`'s first refill has the whole window but the gap. */
  lemma {:induction false} FreshWindowSpace(size: nat)
    requires 4 <= size < U32
    ensures FreeSpace(0, 0, size) == size - 4
  {
  }

  /** The wrap of MediaFifo.cpp lines 32-35. */
  function Advance(wp: nat, n: nat, size: nat): (r: nat)
    requires wp + n <= size
    ensures r < size || (r == size && size == 0)
  {
    if wp + n >= size then wp + n - size else wp + n
  }

  /**
   * `blocks` are the device writes of one refill from write offset `wp` to
   * `wpEnd`, carrying `payload` in order: each is a non-empty chunk of at most
   * 4092 bytes at `base + wp`, ends inside the window, and the offset moves on
   * by its length, wrapping at the window end.
   */
  ghost predicate Feeds(blocks: seq<Transfer>, base: nat, size: nat, wp: nat, wpEnd: nat, payload: seq<byte>)
    decreases |blocks|
  {
    if blocks == [] then wp == wpEnd && payload == []
    else
      var b := blocks[0];
      b.Block? && b.address == base + wp && 0 < |b.data| <= ChunkSize && wp + |b.data| <= size
      && b.data <= payload
      && Feeds(blocks[1..], base, size, Advance(wp, |b.data|, size), wpEnd, payload[|b.data|..])
  }

  /** One more chunk at the current end extends a refill. */
  lemma {:induction false} FeedsSnoc(blocks: seq<Transfer>, base: nat, size: nat, wp: nat, wpEnd: nat,
                                     payload: seq<byte>, chunk: seq<byte>)
    requires Feeds(blocks, base, size, wp, wpEnd, payload)
    requires 0 < |chunk| <= ChunkSize && wpEnd + |chunk| <= size
    ensures Feeds(blocks + [Block(base + wpEnd, chunk)], base, size, wp, Advance(wpEnd, |chunk|, size), payload + chunk)
    decreases |blocks|
  {
    var ext := blocks + [Block(base + wpEnd, chunk)];
    if blocks == [] {
      assert ext[1..] == [];
      assert (payload + chunk)[|chunk|..] == [];
    } else {
      var b := blocks[0];
      assert ext[0] == b && ext[1..] == blocks[1..] + [Block(base + wpEnd, chunk)];
      FeedsSnoc(blocks[1..], base, size, Advance(wp, |b.data|, size), wpEnd, payload[|b.data|..], chunk);
      assert (payload + chunk)[|b.data|..] == payload[|b.data|..] + chunk;
      assert b.data <= payload + chunk;
    }
  }

  /** Every write of a refill lies inside the window, and they carry the payload in full. */
  lemma {:induction false} FeedsInWindow(blocks: seq<Transfer>, base: nat, size: nat, wp: nat, wpEnd: nat, payload: seq<byte>)
    requires Feeds(blocks, base, size, wp, wpEnd, payload)
    ensures forall i :: 0 <= i < |blocks| ==>
      blocks[i].Block? && base <= blocks[i].address && blocks[i].address + |blocks[i].data| <= base + size
    ensures |blocks| <= |payload| && (payload == [] <==> blocks == [])
    decreases |blocks|
  {
    if blocks != [] {
      var b := blocks[0];
      FeedsInWindow(blocks[1..], base, size, Advance(wp, |b.data|, size), wpEnd, payload[|b.data|..]);
      forall i | 0 <= i < |blocks|
        ensures blocks[i].Block? && base <= blocks[i].address && blocks[i].address + |blocks[i].data| <= base + size
      {
        if i > 0 {
          assert blocks[i] == blocks[1..][i - 1];
        }
      }
    }
  }

  /** The bookkeeping of one pass of the pouring loop: `n` more bytes of `data` went out at `wp`. */
  lemma {:induction false} PourStep(blocks: seq<Transfer>, base: nat, size: nat, wp0: nat, wp: nat, data: seq<byte>, done: nat, n: nat)
    requires done + n <= |data| && 0 < n <= ChunkSize && wp + n <= size
    requires Feeds(blocks, base, size, wp0, wp, data[..done])
    ensures data[done..][n..] == data[done + n..]
    ensures Feeds(blocks + [Block(base + wp, data[done..][..n])], base, size, wp0, Advance(wp, n, size), data[..done + n])
  {
    assert data[..done] + data[done..][..n] == data[..done + n];
    FeedsSnoc(blocks, base, size, wp0, wp, data[..done], data[done..][..n]);
  }

  /** The write of MediaFifo.cpp lines 65-68: CMD_MEDIAFIFO with the window, into the command FIFO. */
  function MediaFifoCmd(address: nat, size: nat): (t: Transfer)
    requires address < U32 && size < U32
    ensures t.Block? && t.address == REG_CMDB_WRITE && |t.data| == 12
  {
    Block(REG_CMDB_WRITE, Words([MakeCoprocCmdWord(CMD_MEDIAFIFO), address as bv32, size as bv32]))
  }

  class MediaFifo {
    const display: EveDisplay
    const fifoAddress: nat
    const fifoSize: nat
    const data0: array<byte>
    const data1: array<byte>
    var source: Stream?
    var running: bool
    var writepos: nat
    var bufferIndex: nat
    var readBusy: bool

    ghost predicate Valid()
      reads this
    {
      data0.Length == ChunkSize && data1.Length == ChunkSize && data0 != data1
      && 0 < fifoSize && fifoSize % 4 == 0 && fifoAddress % 4 == 0
      && fifoAddress + fifoSize <= EVE_MEMORY_SIZE
      && writepos < fifoSize && bufferIndex < 2
    }

    /** MediaFifo.h asks for a uint32-aligned address and size. */
    constructor (display: EveDisplay, address: nat, size: nat)
      requires 0 < size && size % 4 == 0 && address % 4 == 0 && address + size <= EVE_MEMORY_SIZE
      ensures Valid() && fresh(data0) && fresh(data1)
      ensures this.display == display && fifoAddress == address && fifoSize == size
      ensures source == null && !running && !readBusy && writepos == 0 && bufferIndex == 0
    {
      this.display := display;
      fifoAddress := address;
      fifoSize := size;
      data0 := new byte[ChunkSize];
      data1 := new byte[ChunkSize];
      source := null;
      running := false;
      writepos := 0;
      bufferIndex := 0;
      readBusy := false;
    }

    /**
     * The most one pass of the pouring loop asks the source for at write
     * offset `wp`, given a whole chunk of space: a chunk, cut at the window
     * end (MediaFifo.cpp lines 14-17).
     */
    function Limit(wp: nat): int
    {
      if wp + ChunkSize > fifoSize then fifoSize - wp else ChunkSize
    }

    /** A write that got everything its pass asked for. */
    predicate Full(b: Transfer)
    {
      b.Block? && fifoAddress <= b.address && |b.data| == Limit(b.address - fifoAddress)
    }

    /**
     * How a refill with `space` bytes free ends: every write but the last is
     * full; it stops with a chunk of space still free and every write full,
     * or, not stopped, it has written something and ends short of a chunk of
     * space or after a short read; a source that had nothing (`dry`) stops
     * it whenever a chunk of space is free.
     */
    ghost predicate RefillEnds(blocks: seq<Transfer>, space: nat, written: nat, stopped: bool, dry: bool)
    {
      (forall i :: 0 <= i < |blocks| - 1 ==> Full(blocks[i]))
      && (stopped ==> space - written >= ChunkSize && forall i :: 0 <= i < |blocks| ==> Full(blocks[i]))
      && (!stopped && space >= ChunkSize ==>
            blocks != [] && (space - written < ChunkSize || !Full(blocks[|blocks| - 1])))
      && (space >= ChunkSize && dry ==> stopped)
    }

    /**
     * `fillBuffer(readpos)`. `blocks` are the chunk writes it issues and
     * `stopped` says whether the source gave nothing, which stops the timer.
     * The bytes consumed from the source never exceed the free space, so the
     * read offset is never overrun; the new write offset is published if and
     * only if something was written. Every write but the last is full; the
     * refill ends stopped with a chunk of space still free, or short of a
     * chunk of space, or after a short read; so a source with nothing left
     * stops the timer whenever a chunk of space is free. The ghost `space`
     * is the free space the method computes, named for the contract.
     */
    method FillBuffer(readpos: nat, ghost space: nat) returns (ghost blocks: seq<Transfer>, ghost stopped: bool, ghost written: nat)
      requires Valid() && readpos < U32 && source != null
      requires space == FreeSpace(readpos, writepos, fifoSize)
      modifies this, data0, data1, source, display
      ensures Valid() && source == old(source) && readBusy == old(readBusy)
      ensures written <= space
      ensures space < ChunkSize ==> written == 0
      ensures written <= |old(source.data)| && source.data == old(source.data)[written..]
      ensures Feeds(blocks, fifoAddress, fifoSize, old(writepos), writepos, old(source.data)[..written])
      ensures display.log == old(display.log) + blocks
                             + (if written > 0 then [Reg32(REG_MEDIAFIFO_WRITE, writepos as bv32)] else [])
      ensures bufferIndex == (old(bufferIndex) + |blocks|) % 2
      ensures running == (old(running) && !stopped)
      ensures RefillEnds(blocks, space, written, stopped, old(source.data) == [])
    {
      var free := FreeSpace(readpos, writepos, fifoSize);
      var bytesWritten;
      blocks, stopped, bytesWritten := PourAll(free);
      written := bytesWritten;
      if bytesWritten != 0 {
        display.Write32(REG_MEDIAFIFO_WRITE, writepos as bv32);
      }
    }

    /** The loop of MediaFifo.cpp lines 12-41: chunks are poured while at least a whole chunk of space is free. */
    method PourAll(space0: nat) returns (ghost blocks: seq<Transfer>, ghost stopped: bool, bytesWritten: nat)
      requires Valid() && source != null
      modifies this`writepos, this`bufferIndex, this`running, data0, data1, source, display
      ensures Valid() && source == old(source)
      ensures bytesWritten <= space0 && (space0 < ChunkSize ==> bytesWritten == 0)
      ensures Poured(blocks, bytesWritten, old(writepos), old(source.data), old(display.log), old(bufferIndex))
      ensures running == (old(running) && !stopped)
      ensures forall i :: 0 <= i < |blocks| - 1 ==> Full(blocks[i])
      ensures stopped ==> space0 - bytesWritten >= ChunkSize && forall i :: 0 <= i < |blocks| ==> Full(blocks[i])
      ensures !stopped && space0 >= ChunkSize ==>
        blocks != [] && (space0 - bytesWritten < ChunkSize || !Full(blocks[|blocks| - 1]))
    {
      var space: nat := space0;
      bytesWritten := 0;
      blocks, stopped := [], false;
      while space >= ChunkSize
        invariant Valid() && source == old(source)
        invariant bytesWritten + space == space0
        invariant space0 < ChunkSize ==> bytesWritten == 0
        invariant Poured(blocks, bytesWritten, old(writepos), old(source.data), old(display.log), old(bufferIndex))
        invariant running == old(running) && !stopped
        invariant forall i :: 0 <= i < |blocks| ==> Full(blocks[i])
        decreases space
      {
        var n, full, more := PourChunk(space, blocks, bytesWritten, old(writepos), old(source.data), old(display.log), old(bufferIndex));
        if n == 0 {
          running := false;
          stopped := true;
          break;
        }
        blocks := more;
        space := space - n;
        bytesWritten := bytesWritten + n;
        if !full {
          break;
        }
      }
    }

    /**
     * What the pouring loop has done so far: `done` bytes of the source's
     * original data `d0` went out as the writes `blocks`, from write offset
     * `wp0`, switching buffers once per write. (`Feeds` is compared with
     * `true` so that the verifier keeps it as one fact instead of unfolding it
     * into every conjunct of its definition.)
     */
    ghost predicate Poured(blocks: seq<Transfer>, done: nat, wp0: nat, d0: seq<byte>, log0: seq<Transfer>, bi0: nat)
      reads this`source, this`writepos, this`bufferIndex, source, display
    {
      source != null && done <= |d0| && source.data == d0[done..]
      && Feeds(blocks, fifoAddress, fifoSize, wp0, writepos, d0[..done]) == true
      && (done == 0) == (blocks == [])
      && display.log == log0 + blocks
      && bufferIndex == (bi0 + |blocks|) % 2
    }

    /**
     * One pass of the loop of MediaFifo.cpp lines 14-40: the chunk is cut to
     * the free space and to the window end, then poured; `full` says whether
     * the source filled it, which is when the loop goes on.
     */
    method PourChunk(space: nat, ghost blocks: seq<Transfer>, ghost done: nat, ghost wp0: nat,
                     ghost d0: seq<byte>, ghost log0: seq<Transfer>, ghost bi0: nat)
      returns (n: nat, full: bool, ghost more: seq<Transfer>)
      requires Valid() && space >= ChunkSize && Poured(blocks, done, wp0, d0, log0, bi0)
      modifies this`writepos, this`bufferIndex, data0, data1, source, display
      ensures Valid() && source == old(source) && n <= space
      ensures n <= Limit(old(writepos)) && (full <==> n == Limit(old(writepos)))
      ensures n == 0 ==> Poured(blocks, done, wp0, d0, log0, bi0)
      ensures n > 0 ==> Poured(more, done + n, wp0, d0, log0, bi0)
      ensures n > 0 ==> more == blocks + [Block(fifoAddress + old(writepos), d0[done..][..n])]
    {
      var bytesToRead := if ChunkSize < space then ChunkSize else space;
      if writepos + bytesToRead > fifoSize {
        bytesToRead := fifoSize - writepos;
      }
      ghost var wp := writepos;
      more := blocks;
      n := Pour(bytesToRead);
      full := n == bytesToRead;
      if n > 0 {
        PourStep(blocks, fifoAddress, fifoSize, wp0, wp, d0, done, n);
        more := blocks + [Block(fifoAddress + wp, d0[done..][..n])];
      }
    }

    /**
     * One pass of the loop body of MediaFifo.cpp lines 19-36: read up to
     * `toRead` bytes into the current buffer; unless the source gave nothing,
     * write them at the write offset, advance it (wrapping at the window end)
     * and switch buffers.
     */
    method Pour(toRead: nat) returns (n: nat)
      requires Valid() && source != null && 0 < toRead <= ChunkSize && writepos + toRead <= fifoSize
      modifies this`writepos, this`bufferIndex, data0, data1, source, display
      ensures Valid() && source == old(source)
      ensures n <= toRead && n <= |old(source.data)| && source.data == old(source.data)[n..]
      ensures n == 0 ==> display.log == old(display.log) && writepos == old(writepos) && bufferIndex == old(bufferIndex)
      ensures n > 0 ==>
        display.log == old(display.log) + [Block(fifoAddress + old(writepos), old(source.data)[..n])]
        && writepos == Advance(old(writepos), n, fifoSize) && bufferIndex == 1 - old(bufferIndex)
    {
      var buf := if bufferIndex == 0 then data0 else data1;
      n := source.ReadBytes(buf, toRead);
      if n == 0 {
        return;
      }
      display.Write(fifoAddress + writepos, buf[..n]);
      writepos := writepos + n;
      if writepos >= fifoSize {
        writepos := writepos - fifoSize;
      }
      bufferIndex := 1 - bufferIndex;
    }

    /** `update`: the read of REG_MEDIAFIFO_READ completed with `data32`; the refill runs. */
    method Update(data32: nat) returns (ghost blocks: seq<Transfer>, ghost stopped: bool, ghost written: nat)
      requires Valid() && data32 < U32 && source != null
      modifies this, data0, data1, source, display
      ensures Valid() && source == old(source) && !readBusy
      ensures written <= FreeSpace(data32, old(writepos), fifoSize)
      ensures written <= |old(source.data)| && source.data == old(source.data)[written..]
      ensures Feeds(blocks, fifoAddress, fifoSize, old(writepos), writepos, old(source.data)[..written])
      ensures display.log == old(display.log) + blocks
                             + (if written > 0 then [Reg32(REG_MEDIAFIFO_WRITE, writepos as bv32)] else [])
      ensures running == (old(running) && !stopped)
      ensures RefillEnds(blocks, FreeSpace(data32, old(writepos), fifoSize), written, stopped, old(source.data) == [])
    {
      readBusy := false;
      blocks, stopped, written := FillBuffer(data32, FreeSpace(data32, writepos, fifoSize));
    }

    /** The 50 ms timer tick: a read of the device's read offset is issued only when none is in flight. */
    method TimerTick() returns (issued: bool)
      requires Valid() && running
      modifies this
      ensures Valid() && issued == !old(readBusy) && readBusy
      ensures running && writepos == old(writepos) && bufferIndex == old(bufferIndex) && source == old(source)
    {
      issued := !readBusy;
      readBusy := true;
    }

    /** `end`: only the timer stops. */
    method End()
      requires Valid()
      modifies this
      ensures Valid() && !running
      ensures writepos == old(writepos) && bufferIndex == old(bufferIndex) && source == old(source) && readBusy == old(readBusy)
    {
      running := false;
    }

    /**
     * `begin(source)`: stop, take the source, hand the window to the
     * co-processor with CMD_MEDIAFIFO, restart at offset 0 with a refill whose
     * free space is the window minus the gap, and start the timer.
     */
    method Begin(src: Stream) returns (ok: bool, ghost blocks: seq<Transfer>, ghost stopped: bool, ghost written: nat)
      requires Valid()
      modifies this, data0, data1, src, display
      ensures Valid() && ok && running && !readBusy && source == src
      ensures written <= fifoSize - 4 && written <= |old(src.data)| && src.data == old(src.data)[written..]
      ensures Feeds(blocks, fifoAddress, fifoSize, 0, writepos, old(src.data)[..written])
      ensures display.log == old(display.log)
                             + [MediaFifoCmd(fifoAddress, fifoSize)]
                             + blocks
                             + (if written > 0 then [Reg32(REG_MEDIAFIFO_WRITE, writepos as bv32)] else [])
      ensures bufferIndex == (old(bufferIndex) + |blocks|) % 2
      ensures RefillEnds(blocks, fifoSize - 4, written, stopped, old(src.data) == [])
      ensures fifoSize - 4 >= ChunkSize && written == 0 ==> stopped && blocks == []
    {
      End();
      source := src;
      var cmd := MediaFifoCmd(fifoAddress, fifoSize);
      display.Write(cmd.address, cmd.data);
      ghost var log1, d, bi := display.log, src.data, bufferIndex;
      writepos := 0;
      FreshWindowSpace(fifoSize);
      blocks, stopped, written := FillBuffer(0, fifoSize - 4);
      assert log1 == old(display.log) + [cmd] && d == old(src.data) && bi == old(bufferIndex);
      assert bufferIndex == (old(bufferIndex) + |blocks|) % 2;
      assert display.log == old(display.log) + [cmd] + blocks
                            + (if written > 0 then [Reg32(REG_MEDIAFIFO_WRITE, writepos as bv32)] else []);
      readBusy := false;
      running := true;
      ok := true;
    }
  }
}
