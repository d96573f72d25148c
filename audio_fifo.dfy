// The audio FIFO feeder of src/AudioFifo.cpp. A circular window of device
// memory {fifoAddress, fifoSize} is played back by the device; the host keeps
// its write offset `writepos` and, each time it learns the device's read
// offset, tops the window up from the byte source through a 4092-byte local
// buffer. The timer is the flag `running`; the deferred read-position
// callback is a direct call of `ReadPosComplete`.
module AudioFeed {
  import opened Bytes
  import opened Eve
  import opened Transport

  /** `AudioFifo::bufferSize`. */
  const BufferSize: nat := 4092

  const U32: nat := 0x1_0000_0000

  /** `align8`: `value & ~0x07` clears the three low bits, which for an unsigned value is subtracting its remainder mod 8. */
  function Align8(v: nat): (r: nat)
    ensures r % 8 == 0 && r <= v && v - r < 8
  {
    v - v % 8
  }

  /** `writepos %= fifoSize`: the write offset reduced into the window. */
  function Reduce(wp: nat, size: nat): (r: nat)
    requires 0 < size
    ensures r < size && (wp < size ==> r == wp)
  {
    wp % size
  }

  /** The two regions a refill writes: `first` bytes at writepos, then `second` bytes at the window start. */
  datatype Chunks = Chunks(first: nat, second: nat)

  /** The split of AudioFifo.cpp lines 15-23, for a write offset already reduced below the window size. */
  function Split(wp: nat, rp: nat, size: nat): (c: Chunks)
    requires wp < size
    ensures rp < wp ==> wp + c.first == size && c.second % 8 == 0 && c.second <= rp < c.second + 8
    ensures wp <= rp ==> c.second == 0 && c.first % 8 == 0 && wp + c.first <= rp < wp + c.first + 8
  {
    if rp < wp then Chunks(size - wp, Align8(rp))
    else Chunks(Align8(rp - wp), 0)
  }

  /** The clamp of AudioFifo.cpp lines 31-36 to the local buffer. */
  function Clamp(c: Chunks): (k: Chunks)
    ensures k.first + k.second <= BufferSize
    ensures k.first == (if c.first > BufferSize then BufferSize else c.first)
    ensures k.second <= c.second
    ensures c.first + c.second > BufferSize ==> k.first + k.second == BufferSize
    ensures c.first + c.second <= BufferSize ==> k == c
  {
    if c.first > BufferSize then Chunks(BufferSize, 0)
    else if c.first + c.second > BufferSize then Chunks(c.first, BufferSize - c.first)
    else c
  }

  /** The worked example: window 8192, write offset 8000, read offset 100. */
  lemma SplitExample()
    ensures Split(8000, 100, 8192) == Chunks(192, 96)
  {
  }

  /**
   * With the read offset inside the window, the refill never passes the read
   * offset or the window end: the first region ends at or before the end of
   * the window, and before the read offset when that lies ahead; the second
   * region exists only after a wrap and ends at or before the read offset.
   */
  lemma {:induction false} RegionsStayBehindReader(wp: nat, rp: nat, size: nat)
    requires wp < size && rp <= size
    ensures var k := Clamp(Split(wp, rp, size));
      wp + k.first <= size
      && (wp <= rp ==> wp + k.first <= rp)
      && (k.second > 0 ==> rp < wp && k.second <= rp)
  {
  }

  /** After a reset to offset 0, a refill from read offset 0 has nothing to write. */
  lemma {:induction false} RestartWritesNothing(size: nat)
    requires 0 < size
    ensures Split(0, 0, size).first == 0
  {
  }

  /** `play`'s refill period: three quarters of the time the device takes to drain the local buffer. */
  function PlayInterval(format: nat, frequency: nat): (ms: nat)
    requires frequency > 0
    ensures var drain := (1000 * BufferSize / frequency) * (if format == ADPCM then 2 else 1);
      4 * ms <= 3 * drain < 4 * ms + 4
  {
    var interval := 1000 * BufferSize / frequency;
    var interval' := if format == ADPCM then interval * 2 else interval;
    3 * interval' / 4
  }

  class AudioFifo {
    const display: EveDisplay
    const fifoAddress: nat
    const fifoSize: nat
    const buffer: array<byte>
    var source: Stream?
    var writepos: nat
    var running: bool
    var interval: nat

    ghost predicate Valid()
      reads this
    {
      buffer.Length == BufferSize
      && 0 < fifoSize && fifoAddress + fifoSize <= EVE_MEMORY_SIZE
      && writepos < U32
    }

    constructor (display: EveDisplay, address: nat, size: nat)
      requires 0 < size && address + size <= EVE_MEMORY_SIZE
      ensures Valid() && fresh(buffer)
      ensures this.display == display && fifoAddress == address && fifoSize == size
      ensures source == null && !running && writepos == 0
    {
      this.display := display;
      fifoAddress := address;
      fifoSize := size;
      buffer := new byte[BufferSize];
      source := null;
      writepos := 0;
      running := false;
      interval := 0;
    }

    /**
     * `fillBuffer(readpos)`: the refill. When the split leaves nothing to
     * write, the timer stops and looping playback is switched off; otherwise
     * the clamped regions are read from the source, a short read is padded
     * with zeros, the one or two regions are written, and the write offset
     * advances by the bytes actually read.
     */
    method FillBuffer(readpos: nat)
      requires Valid() && readpos < U32 && source != null
      modifies this, buffer, source, display
      ensures Valid() && source == old(source) && interval == old(interval)
      ensures var wp := Reduce(old(writepos), fifoSize);
        var c := Split(wp, readpos, fifoSize);
        if c.first == 0 then
          !running && writepos == wp
          && display.log == old(display.log) + [Reg8(REG_PLAYBACK_LOOP, 0)]
          && source.data == old(source.data)
        else
          source != null && Refilled(wp, Clamp(c), old(source.data), old(display.log)) && running == old(running)
    {
      writepos := Reduce(writepos, fifoSize);
      var c := Split(writepos, readpos, fifoSize);
      if c.first == 0 {
        running := false;
        display.Write8(REG_PLAYBACK_LOOP, 0);
        return;
      }
      WriteRegions(Clamp(c));
    }

    /**
     * The state after a refill of the regions `k` from write offset `wp`: the
     * source gave up `len` bytes, the local buffer holds them followed by zeros,
     * the first region went to `fifoAddress + wp`, the second (if any) to the
     * window start, and the write offset moved on by `len`.
     */
    ghost predicate Refilled(wp: nat, k: Chunks, data0: seq<byte>, log0: seq<Transfer>)
      reads this, buffer, source, display
      requires Valid() && source != null
    {
      var n := k.first + k.second;
      var len := |data0| - |source.data|;
      0 <= len <= n <= BufferSize
      && source.data == data0[len..]
      && buffer[..n] == data0[..len] + Zeros(n - len)
      && writepos == wp + len
      && display.log == log0 + [Block(fifoAddress + wp, buffer[..k.first])]
                        + (if k.second > 0 then [Block(fifoAddress, buffer[k.first..n])] else [])
    }

    /** AudioFifo.cpp lines 38-48, once the regions are known. */
    method WriteRegions(k: Chunks)
      requires Valid() && source != null && writepos < fifoSize
      requires k.first + k.second <= BufferSize
      modifies this`writepos, buffer, source, display
      ensures Valid() && source != null
      ensures Refilled(old(writepos), k, old(source.data), old(display.log))
    {
      var n := k.first + k.second;
      var len := ReadPadded(n);
      display.Write(fifoAddress + writepos, buffer[..k.first]);
      ghost var log1 := display.log;
      if k.second > 0 {
        display.Write(fifoAddress, buffer[k.first..n]);
      }
      assert display.log == log1 + (if k.second > 0 then [Block(fifoAddress, buffer[k.first..n])] else []);
      writepos := writepos + len;
      assert |old(source.data)| - |source.data| == len;
    }

    /** AudioFifo.cpp lines 37-40: up to `n` bytes from the source, and zeros after a short read. */
    method ReadPadded(n: nat) returns (len: nat)
      requires Valid() && source != null && n <= BufferSize
      modifies buffer, source
      ensures len <= n && len <= |old(source.data)|
      ensures source.data == old(source.data)[len..]
      ensures buffer[..n] == old(source.data)[..len] + Zeros(n - len)
    {
      len := source.ReadBytes(buffer, n);
      var i := len;
      while i < n
        modifies buffer
        invariant len <= i <= n
        invariant buffer[..i] == old(source.data)[..len] + Zeros(i - len)
      {
        buffer[i] := 0;
        assert Zeros(i + 1 - len) == Zeros(i - len) + [0];
        i := i + 1;
        assert buffer[..i] == buffer[..i - 1] + [0];
      }
    }

    /** The read-position callback: the device reports an absolute address, taken relative to the window in uint32_t. */
    method ReadPosComplete(data32: nat)
      requires Valid() && data32 < U32 && source != null
      modifies this, buffer, source, display
      ensures Valid() && source == old(source) && interval == old(interval)
      ensures var wp := Reduce(old(writepos), fifoSize);
        var c := Split(wp, (data32 - fifoAddress) % U32, fifoSize);
        if c.first == 0 then
          !running && writepos == wp
          && display.log == old(display.log) + [Reg8(REG_PLAYBACK_LOOP, 0)]
          && source.data == old(source.data)
        else
          source != null && Refilled(wp, Clamp(c), old(source.data), old(display.log)) && running == old(running)
    {
      FillBuffer((data32 - fifoAddress) % U32);
    }

    /** `stop`: the timer stops, the playback length is cleared and playback is triggered. */
    method Stop()
      requires Valid()
      modifies this, display
      ensures Valid() && !running
      ensures writepos == old(writepos) && source == old(source) && interval == old(interval)
      ensures display.log == old(display.log) + [Reg32(REG_PLAYBACK_LENGTH, 0), Reg8(REG_PLAYBACK_PLAY, 1)]
    {
      running := false;
      display.Write32(REG_PLAYBACK_LENGTH, 0);
      display.Write8(REG_PLAYBACK_PLAY, 1);
    }

    /**
     * `play(source, format, frequency)`: stop, take the source, restart at
     * offset 0 (whose refill writes nothing), write the playback set-up block
     * and start the timer at the refill period.
     */
    method Play(src: Stream, format: nat, frequency: nat)
      requires Valid() && 0 < frequency < U32 && format < U32
      modifies this, buffer, src, display
      ensures Valid() && source == src && running && writepos == 0
      ensures interval == PlayInterval(format, frequency)
      ensures src.data == old(src.data)
      ensures display.log == old(display.log)
        + [Reg32(REG_PLAYBACK_LENGTH, 0), Reg8(REG_PLAYBACK_PLAY, 1), Reg8(REG_PLAYBACK_LOOP, 0)]
        + [Block(REG_PLAYBACK_START, Words([fifoAddress as bv32, fifoSize as bv32, 0, frequency as bv32, format as bv32, 1, 1]))]
    {
      Stop();
      source := src;
      writepos := 0;
      RestartWritesNothing(fifoSize);
      FillBuffer(0);
      display.Write(REG_PLAYBACK_START, Words([fifoAddress as bv32, fifoSize as bv32, 0, frequency as bv32, format as bv32, 1, 1]));
      interval := PlayInterval(format, frequency);
      running := true;
    }
  }
}
