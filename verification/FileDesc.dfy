/** Reading from a file or a socket, as the bytes that are there. */
module FileDesc {
  import opened Bytes

  /** `readBytes<uint8_t>`: at most `n` bytes from the read position, moved one by one into the vector. */
  method ReadBytes(file: seq<byte>, pos: nat, n: nat) returns (buf: seq<byte>)
    requires pos <= |file|
    ensures buf == file[pos..if pos + n <= |file| then pos + n else |file|]
  {
    var readUnits := if pos + n <= |file| then n else |file| - pos;
    buf := [];
    for i := 0 to readUnits
      invariant buf == file[pos..pos + i]
    {
      buf := buf + [file[pos + i]];
    }
  }
}
