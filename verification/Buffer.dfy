/** nwl::Buffer: a byte queue kept between two indices of a growable array. */
module Buffers {
  import opened Sequences

  const CHEAP_PREPEND: nat := 8
  const EXTRA_BUF: nat := 65536

  class Buffer {
    var data: array<byte>
    var readerIndex: nat
    var writerIndex: nat

    ghost predicate Valid()
      reads this
    {
      CHEAP_PREPEND <= readerIndex <= writerIndex <= data.Length
    }

    /** The abstract value: the bytes appended and not yet retrieved, oldest first. */
    ghost function Contents(): (s: seq<byte>)
      requires Valid()
      reads this, data
    {
      data[readerIndex..writerIndex]
    }

    constructor (initialSize: nat)
      ensures Valid() && Contents() == [] && fresh(data)
    {
      data := new byte[CHEAP_PREPEND + initialSize](_ => 0);
      readerIndex := CHEAP_PREPEND;
      writerIndex := CHEAP_PREPEND;
    }

    method ReadableBytes() returns (n: nat)
      requires Valid()
      ensures n == |Contents()|
    {
      n := writerIndex - readerIndex;
    }

    /** The first n readable bytes, not consumed. */
    method Peek(n: nat) returns (s: seq<byte>)
      requires Valid() && n <= |Contents()|
      ensures s == Contents()[..n]
    {
      s := data[readerIndex..readerIndex + n];
    }

    /** Consumes len bytes, or everything when fewer are present. */
    method Retrieve(len: nat)
      requires Valid()
      modifies this
      ensures Valid() && data == old(data)
      ensures Contents() == old(Contents()[Min(len, |Contents()|)..])
    {
      if len < writerIndex - readerIndex {
        readerIndex := readerIndex + len;
      } else {
        RetrieveAll();
      }
    }

    method RetrieveAll()
      requires Valid()
      modifies this
      ensures Valid() && data == old(data) && Contents() == []
      ensures readerIndex == writerIndex == CHEAP_PREPEND
    {
      readerIndex := CHEAP_PREPEND;
      writerIndex := CHEAP_PREPEND;
    }

    method RetrieveAsString(len: nat) returns (result: seq<byte>)
      requires Valid()
      modifies this
      ensures Valid() && data == old(data)
      ensures result + Contents() == old(Contents())
      ensures |result| == old(Min(len, |Contents()|))
    {
      var n := if len < writerIndex - readerIndex then len else writerIndex - readerIndex;
      result := data[readerIndex..readerIndex + n];
      Retrieve(n);
    }

    method Append(src: seq<byte>)
      requires Valid()
      modifies this, data
      ensures Valid() && (data == old(data) || fresh(data))
      ensures Contents() == old(Contents()) + src
    {
      EnsureWritableBytes(|src|);
      WriteTail(src);
    }

    /** The copy to beginWrite() followed by hasWritten(). */
    method WriteTail(src: seq<byte>)
      requires Valid() && data.Length - writerIndex >= |src|
      modifies this, data
      ensures Valid() && data == old(data) && readerIndex == old(readerIndex)
      ensures writerIndex == old(writerIndex) + |src|
      ensures Contents() == old(Contents()) + src
    {
      var w := writerIndex;
      forall i | 0 <= i < |src| {
        data[w + i] := src[i];
      }
      writerIndex := w + |src|;
      assert data[readerIndex..w] == old(data[readerIndex..w]);
      assert data[w..writerIndex] == src;
      assert data[readerIndex..writerIndex] == data[readerIndex..w] + data[w..writerIndex];
    }

    method EnsureWritableBytes(len: nat)
      requires Valid()
      modifies this, data
      ensures Valid() && (data == old(data) || fresh(data))
      ensures Contents() == old(Contents())
      ensures data.Length - writerIndex >= len
    {
      if data.Length - writerIndex < len {
        MakeSpace(len);
      }
    }

    /** Room for len more bytes: slides the content down when the free space before it is
        large enough, otherwise grows the array. */
    method MakeSpace(len: nat)
      requires Valid() && data.Length - writerIndex < len
      modifies this, data
      ensures Valid() && (data == old(data) || fresh(data))
      ensures Contents() == old(Contents())
      ensures data.Length - writerIndex >= len
    {
      if data.Length - writerIndex + readerIndex - CHEAP_PREPEND >= len + CHEAP_PREPEND {
        var readable := writerIndex - readerIndex;
        var r := readerIndex;
        forall i | 0 <= i < readable {
          data[CHEAP_PREPEND + i] := data[r + i];
        }
        readerIndex := CHEAP_PREPEND;
        writerIndex := readerIndex + readable;
      } else {
        var old_, size := data, writerIndex + len;
        data := new byte[size](i requires 0 <= i reads old_ => if i < old_.Length then old_[i] else 0);
      }
    }

    /** One readv over the free tail of the array and a 65536-byte block on the stack. The kernel
        holds inbound and hands over at most limit bytes of it; limit < 0 is an error return. */
    method ReadFd(inbound: seq<byte>, limit: int) returns (n: int)
      requires Valid()
      modifies this, data
      ensures Valid() && (data == old(data) || fresh(data))
      ensures -1 <= n <= |inbound| && n <= Max(limit, -1)
      ensures n <= 0 ==> Contents() == old(Contents())
      ensures n >= 0 ==> Contents() == old(Contents()) + inbound[..n]
      ensures limit < 0 <==> n == -1
      ensures n == 0 <==> limit == 0 || (limit > 0 && inbound == [])
      ensures n >= 0 ==> n == limit || n == |inbound| || n >= EXTRA_BUF
    {
      if limit < 0 {
        return -1;
      }
      var writable := data.Length - writerIndex;
      var room := if writable < EXTRA_BUF then writable + EXTRA_BUF else writable;
      n := Min(Min(limit, |inbound|), room);
      // The kernel scatters the n bytes: first the tail of the array, then the stack block.
      if n <= writable {
        WriteTail(inbound[..n]);
      } else {
        WriteTail(inbound[..writable]);
        Append(inbound[writable..n]);
        assert inbound[..n] == inbound[..writable] + inbound[writable..n];
      }
    }
  }
}
