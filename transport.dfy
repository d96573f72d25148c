// The two ends the feeders and the surface talk to, reduced to what they
// observe. The display (src/include/Graphics/EVE/Display.h) is the record of
// the transfers issued to it, in order; each write goes through
// `prepareWrite`, whose assertion `addrValid` requires an address inside the
// 4 MiB device space. The byte source (an Arduino `Stream`) hands out some
// prefix of what it still holds, at most as many bytes as asked for.
module Transport {
  import opened Bytes
  import opened Eve

  /** One transfer issued to the device. */
  datatype Transfer =
    | Block(address: nat, data: seq<byte>)  // `write(address, data, length)`
    | Reg8(address: nat, byteValue: bv8)       // `write8`
    | Reg32(address: nat, value: bv32)       // `write32`

  /** `EveDisplay::addrValid`: the address lies in device memory. */
  predicate AddrValid(address: nat)
  {
    address < EVE_MEMORY_SIZE
  }

  class EveDisplay {
    var log: seq<Transfer>

    constructor ()
      ensures log == []
    {
      log := [];
    }

    method Write(address: nat, data: seq<byte>)
      requires AddrValid(address)
      modifies this
      ensures log == old(log) + [Block(address, data)]
    {
      log := log + [Block(address, data)];
    }

    method Write8(address: nat, value: bv8)
      requires AddrValid(address)
      modifies this
      ensures log == old(log) + [Reg8(address, value)]
    {
      log := log + [Reg8(address, value)];
    }

    method Write32(address: nat, value: bv32)
      requires AddrValid(address)
      modifies this
      ensures log == old(log) + [Reg32(address, value)]
    {
      log := log + [Reg32(address, value)];
    }
  }

  class Stream {
    /** The bytes the stream has yet to deliver. */
    var data: seq<byte>

    constructor (data: seq<byte>)
      ensures this.data == data
    {
      this.data := data;
    }

    /**
     * `readBytes(buffer, length)`: delivers some prefix of the remaining bytes,
     * no longer than `n`, into `buf[..len]`; the rest of `buf` is untouched.
     * A result of 0 is how the source reports exhaustion or an error.
     */
    method ReadBytes(buf: array<byte>, n: nat) returns (len: nat)
      requires n <= buf.Length
      modifies this, buf
      ensures len <= n && len <= |old(data)|
      ensures data == old(data)[len..]
      ensures buf[..len] == old(data)[..len]
      ensures buf[len..] == old(buf[len..])
    {
      len := if n < |data| then n else |data|;
      var i := 0;
      while i < len
        invariant 0 <= i <= len
        invariant data == old(data)
        invariant buf[..i] == data[..i]
        invariant buf[len..] == old(buf[len..])
      {
        buf[i] := data[i];
        i := i + 1;
      }
      data := data[len..];
    }
  }
}
