/**
 * The network byte buffer: a fixed block of bytes written from the front
 * (`size` bytes so far) and read from a separate cursor (`index`), with
 * little-endian integers and strings prefixed by their u16 byte length.
 * Strings are handled as their UTF-8 bytes.
 */
module Buffers {
  import opened Bytes

  /** The size of a new buffer's block. */
  const Capacity: nat := 2048

  /**
   * The assert in front of each `write_*` as written: it checks the read
   * cursor, although the bytes go to the write position.
   */
  predicate WriteGuardAsWritten(index: nat, size: nat, width: nat, capacity: nat)
  {
    index + width <= capacity
  }

  /** The check the copy actually needs: the new bytes end inside the block. */
  predicate WriteGuard(index: nat, size: nat, width: nat, capacity: nat)
  {
    size + width <= capacity
  }

  /**
   * The guard as written lets a two-byte write start at the last byte of a
   * fresh-sized block, and refuses a two-byte write into an empty buffer
   * whose cursor sits at the end.
   */
  lemma WriteGuardChecksWrongCursor()
    ensures WriteGuardAsWritten(0, Capacity - 1, 2, Capacity) && !WriteGuard(0, Capacity - 1, 2, Capacity)
    ensures !WriteGuardAsWritten(Capacity - 1, 0, 2, Capacity) && WriteGuard(Capacity - 1, 0, 2, Capacity)
  {
  }

  /** The corrected guard admits exactly the writes whose bytes fit after `size`, wherever the cursor is. */
  lemma WriteGuardIgnoresCursor(index: nat, index': nat, size: nat, width: nat, capacity: nat)
    ensures WriteGuard(index, size, width, capacity) <==> WriteGuard(index', size, width, capacity)
    ensures WriteGuard(index, size, width, capacity) <==> size + width <= capacity
  {
  }

  /** The bytes of a string as `write_string` lays them out: u16 length, then the bytes. */
  function StringBytes(s: seq<byte>): (bs: seq<byte>)
    ensures |bs| == 2 + |s|
    ensures bs[2..] == s
  {
    LE(|s| % 0x1_0000, 2) + s
  }

  /** A string shorter than 64 KiB reads back from its layout: the prefix is its length. */
  lemma StringBytesRoundTrip(s: seq<byte>, rest: seq<byte>)
    requires |s| < 0x1_0000
    ensures var bs := StringBytes(s) + rest;
      FromLE(bs[..2]) == |s| && bs[2..2 + |s|] == s && bs[2 + |s|..] == rest
  {
    assert Pow256(2) == 0x1_0000 by {
      assert Pow256(1) == 256;
    }
    var p := LE(|s|, 2);
    var bs := StringBytes(s) + rest;
    assert bs == p + (s + rest);
    assert bs[..2] == p;
    assert bs[2..] == s + rest;
    FromLEOfLE(|s|, 2);
  }

  class Buffer {
    var data: array<byte>
    var size: nat
    var index: nat

    ghost predicate Valid()
      reads this
    {
      size <= data.Length && index <= data.Length
    }

    /** `get_write_data`: the bytes written so far. */
    function WriteData(): (w: seq<byte>)
      requires Valid()
      reads this, data
      ensures |w| == size
    {
      data[..size]
    }

    /** `new`: a zeroed block of 2048 bytes, nothing written, nothing read. */
    constructor()
      ensures Valid() && fresh(data)
      ensures data.Length == Capacity && data[..] == seq(Capacity, _ => 0)
      ensures size == 0 && index == 0
    {
      data := new byte[Capacity](_ => 0);
      size := 0;
      index := 0;
    }

    /** `from`: the block is exactly `v`, all of it written, nothing read. */
    constructor From(v: seq<byte>)
      ensures Valid() && fresh(data)
      ensures data[..] == v && size == |v| && index == 0
    {
      data := new byte[|v|](i requires 0 <= i < |v| => v[i]);
      size := |v|;
      index := 0;
    }

    /** `get_size`. */
    function GetSize(): (n: nat)
      requires Valid()
      reads this, data
      ensures n == |WriteData()|
    {
      size
    }

    /** `reset_read`: the cursor goes back to the start; nothing else changes. */
    method ResetRead()
      requires Valid()
      modifies this
      ensures Valid()
      ensures index == 0 && size == old(size) && data == old(data)
    {
      index := 0;
    }

    /**
     * `write`: copies `buf` to the write position and moves it on. The copy
     * is unchecked in the source, so the bytes must fit in the block.
     */
    method Write(buf: seq<byte>) returns (n: nat)
      requires Valid() && size + |buf| <= data.Length
      modifies this, data
      ensures Valid() && data == old(data) && index == old(index)
      ensures n == |buf| && size == old(size) + |buf|
      ensures data[..] == old(data[..size]) + buf + old(data[size + |buf|..])
    {
      if |buf| == 0 {
        assert data[..] == data[..size] + data[size..];
        return 0;
      }
      ghost var d0 := data[..];
      var i := 0;
      while i < |buf|
        invariant 0 <= i <= |buf|
        invariant data == old(data) && size == old(size) && index == old(index)
        invariant forall j :: 0 <= j < data.Length ==> data[j] == if size <= j < size + i then buf[j - size] else d0[j]
      {
        data[size + i] := buf[i];
        i := i + 1;
      }
      assert data[..] == d0[..size] + buf + d0[size + |buf|..] by {
        forall j | 0 <= j < data.Length
          ensures data[..][j] == (d0[..size] + buf + d0[size + |buf|..])[j]
        {
        }
      }
      size := size + |buf|;
      n := |buf|;
    }

    /** `read`: the next `n` bytes from the cursor, which moves past them; the write side is untouched. */
    method Read(n: nat) returns (buf: seq<byte>)
      requires Valid() && index + n <= data.Length
      modifies this
      ensures Valid() && data == old(data) && size == old(size)
      ensures buf == data[old(index)..old(index) + n] && index == old(index) + n
    {
      if n == 0 {
        return [];
      }
      buf := data[index..index + n];
      index := index + n;
    }

    /** Writing `width` little-endian bytes of `v` appends them to the written data. */
    method WriteUnsigned(v: nat, width: nat) returns (n: nat)
      requires Valid() && v < Pow256(width) && WriteGuard(index, size, width, data.Length)
      modifies this, data
      ensures Valid() && data == old(data) && index == old(index)
      ensures n == width && WriteData() == old(WriteData()) + LE(v, width)
      ensures data[size..] == old(data[..])[size..]
    {
      n := Write(LE(v, width));
      assert WriteData() == data[..size];
    }

    /** `write_byte`. */
    method WriteByte(v: byte) returns (n: nat)
      requires Valid() && WriteGuard(index, size, 1, data.Length)
      modifies this, data
      ensures Valid() && data == old(data) && index == old(index)
      ensures n == 1 && WriteData() == old(WriteData()) + [v]
      ensures data[size..] == old(data[..])[size..]
    {
      OneByteLE(v);
      n := WriteUnsigned(v as nat, 1);
    }

    /** `write_short`: two bytes, least significant first. */
    method WriteShort(v: nat) returns (n: nat)
      requires Valid() && v < 0x1_0000 && WriteGuard(index, size, 2, data.Length)
      modifies this, data
      ensures Valid() && data == old(data) && index == old(index)
      ensures n == 2 && WriteData() == old(WriteData()) + LE(v, 2)
      ensures data[size..] == old(data[..])[size..]
    {
      n := WriteUnsigned(v, 2);
    }

    /** `write_integer`: four bytes, least significant first. */
    method WriteInteger(v: nat) returns (n: nat)
      requires Valid() && v < 0x1_0000_0000 && WriteGuard(index, size, 4, data.Length)
      modifies this, data
      ensures Valid() && data == old(data) && index == old(index)
      ensures n == 4 && WriteData() == old(WriteData()) + LE(v, 4)
      ensures data[size..] == old(data[..])[size..]
    {
      n := WriteUnsigned(v, 4);
    }

    /** `write_long`: eight bytes, least significant first. */
    method WriteLong(v: nat) returns (n: nat)
      requires Valid() && v < 0x1_0000_0000_0000_0000 && WriteGuard(index, size, 8, data.Length)
      modifies this, data
      ensures Valid() && data == old(data) && index == old(index)
      ensures n == 8 && WriteData() == old(WriteData()) + LE(v, 8)
      ensures data[size..] == old(data[..])[size..]
    {
      n := WriteUnsigned(v, 8);
    }

    /**
     * `write_string`: the byte length cast to u16, then the bytes; returns
     * the count of the second write, as the source does.
     */
    method WriteString(s: seq<byte>) returns (n: nat)
      requires Valid() && size + 2 + |s| <= data.Length
      modifies this, data
      ensures Valid() && data == old(data) && index == old(index)
      ensures n == |s| && WriteData() == old(WriteData()) + StringBytes(s)
      ensures data[size..] == old(data[..])[size..]
    {
      var _ := WriteShort(|s| % 0x1_0000);
      ghost var mid := WriteData();
      n := Write(s);
      assert WriteData() == mid + s;
    }

    /** Reading `width` bytes at the cursor as a little-endian number. */
    method ReadUnsigned(width: nat) returns (v: nat)
      requires Valid() && index + width <= data.Length
      modifies this
      ensures Valid() && data == old(data) && size == old(size)
      ensures v == FromLE(data[old(index)..old(index) + width]) && index == old(index) + width
    {
      var bytes := Read(width);
      v := FromLE(bytes);
    }

    /** `read_byte`. */
    method ReadByte() returns (v: byte)
      requires Valid() && index + 1 <= data.Length
      modifies this
      ensures Valid() && data == old(data) && size == old(size)
      ensures v == data[old(index)] && index == old(index) + 1
    {
      var bytes := Read(1);
      v := bytes[0];
    }

    /** `read_short`. */
    method ReadShort() returns (v: nat)
      requires Valid() && index + 2 <= data.Length
      modifies this
      ensures Valid() && data == old(data) && size == old(size)
      ensures v == FromLE(data[old(index)..old(index) + 2]) && index == old(index) + 2
    {
      v := ReadUnsigned(2);
    }

    /** `read_integer`. */
    method ReadInteger() returns (v: nat)
      requires Valid() && index + 4 <= data.Length
      modifies this
      ensures Valid() && data == old(data) && size == old(size)
      ensures v == FromLE(data[old(index)..old(index) + 4]) && index == old(index) + 4
    {
      v := ReadUnsigned(4);
    }

    /** `read_long`. */
    method ReadLong() returns (v: nat)
      requires Valid() && index + 8 <= data.Length
      modifies this
      ensures Valid() && data == old(data) && size == old(size)
      ensures v == FromLE(data[old(index)..old(index) + 8]) && index == old(index) + 8
    {
      v := ReadUnsigned(8);
    }

    /**
     * `read_string`: a u16 length, then that many bytes; slicing past the end
     * of the block panics in the source, so those bytes must be there.
     */
    method ReadString() returns (s: seq<byte>)
      requires Valid() && index + 2 <= data.Length
      requires index + 2 + FromLE(data[index..index + 2]) <= data.Length
      modifies this
      ensures Valid() && data == old(data) && size == old(size)
      ensures var len := FromLE(data[old(index)..old(index) + 2]);
        s == data[old(index) + 2..old(index) + 2 + len] && index == old(index) + 2 + len
    {
      var len := ReadShort();
      s := data[index..index + len];
      index := index + len;
    }
  }

  /**
   * Two `write_byte(12)` into a new buffer, then one `read_byte`: the byte
   * comes back, one byte has been read and two written.
   */
  method WriteTwiceReadOnce() returns (v: byte, index: nat, size: nat, first: seq<byte>)
    ensures first == [12]
    ensures v == 12 && index == 1 && size == 2
  {
    var b := new Buffer();
    var _ := b.WriteByte(12);
    first := b.WriteData();
    var _ := b.WriteByte(12);
    assert b.data[0] == b.WriteData()[0];
    v := b.ReadByte();
    index := b.index;
    size := b.size;
  }

  /** Whatever `write_short` puts at the cursor, `read_short` reads back, and so for four and eight bytes. */
  method UnsignedRoundTrip(v: nat, width: nat) returns (w: nat)
    requires v < Pow256(width) && width <= Capacity
    ensures w == v
  {
    var b := new Buffer();
    var _ := b.WriteUnsigned(v, width);
    assert b.data[..width] == b.WriteData();
    FromLEOfLE(v, width);
    w := b.ReadUnsigned(width);
  }
}
