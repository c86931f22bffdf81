/** The buffer of a connection: a byte queue in an array that is compacted when
    there is room in front and grown when there is not. */
module ByteBuffers {
  import opened Wrappers

  const INITIAL_SIZE := 1024
  const EXTRA_SIZE := 65536

  function Max(a: int, b: int): int {
    if a > b then a else b
  }

  class Buffer {
    var buffer: array<char>
    var readerIndex: nat
    var writerIndex: nat

    // Everything ever put in and taken out, and the most it ever held.
    ghost var put: string
    ghost var taken: string
    ghost var most: nat

    ghost predicate Valid()
      reads this, buffer
    {
      && readerIndex <= writerIndex <= buffer.Length
      && taken + Contents() == put
      && |Contents()| <= most
      && buffer.Length <= Max(INITIAL_SIZE, 2 * most)
    }

    ghost function Contents(): string
      requires readerIndex <= writerIndex <= buffer.Length
      reads this, buffer
    {
      buffer[readerIndex..writerIndex]
    }

    /** The byte queue the buffer stands for, if its indices are in order. */
    ghost function Queue(): Option<string>
      reads this, buffer
    {
      if Valid() then Some(Contents()) else None
    }

    constructor ()
      ensures Valid() && Contents() == "" && put == "" && fresh(buffer)
    {
      buffer := new char[INITIAL_SIZE](_ => '\0');
      readerIndex, writerIndex := 0, 0;
      put, taken, most := "", "", 0;
    }

    function ReadableBytes(): int
      reads this
    {
      writerIndex - readerIndex
    }

    function WritableBytes(): int
      reads this
    {
      buffer.Length - writerIndex
    }

    function PrependableBytes(): int
      reads this
    {
      readerIndex
    }

    /** Asking for more than there is changes nothing. */
    method Retrieve(len: nat) returns (ok: bool)
      requires Valid()
      modifies this
      ensures Valid() && buffer == old(buffer) && put == old(put) && most == old(most)
      ensures ok == (len <= |old(Contents())|)
      ensures Contents() == if ok then old(Contents())[len..] else old(Contents())
      ensures taken == if ok then old(taken) + old(Contents())[..len] else old(taken)
    {
      ghost var c := Contents();
      if len < ReadableBytes() {
        readerIndex := readerIndex + len;
        taken := taken + c[..len];
        assert c == c[..len] + c[len..];
      } else if len == ReadableBytes() {
        RetrieveAll();
      } else {
        return false;
      }
      return true;
    }

    method RetrieveAll()
      requires Valid()
      modifies this
      ensures Valid() && buffer == old(buffer) && put == old(put) && most == old(most)
      ensures Contents() == "" && taken == old(taken) + old(Contents())
    {
      taken := taken + Contents();
      readerIndex := 0;
      writerIndex := 0;
    }

    method RetrieveAsString(len: nat) returns (result: string)
      requires Valid() && len <= |Contents()|
      modifies this
      ensures Valid() && buffer == old(buffer)
      ensures result == old(Contents())[..len] && Contents() == old(Contents())[len..]
    {
      result := buffer[readerIndex..readerIndex + len];
      var _ := Retrieve(len);
    }

    /** Room for len more bytes: by moving the contents to the front if that is
        enough, else in a larger array. */
    method MakeSpace(len: nat)
      requires readerIndex <= writerIndex <= buffer.Length && WritableBytes() < len
      modifies this`buffer, this`readerIndex, this`writerIndex, buffer
      ensures readerIndex <= writerIndex && writerIndex + len <= buffer.Length
      ensures Contents() == old(Contents())
      ensures buffer == old(buffer) || fresh(buffer)
      ensures buffer.Length <= Max(old(buffer.Length), 2 * (|Contents()| + len))
    {
      if WritableBytes() + PrependableBytes() < len {
        Resize(writerIndex + len);
      } else {
        Compact();
      }
    }

    /** Move the contents to the front, in place. */
    method Compact()
      requires readerIndex <= writerIndex <= buffer.Length
      modifies this`readerIndex, this`writerIndex, buffer
      ensures readerIndex == 0 && writerIndex == |old(Contents())| <= buffer.Length
      ensures Contents() == old(Contents())
    {
      var readable := ReadableBytes();
      ghost var c := Contents();
      var i := 0;
      while i < readable
        invariant 0 <= i <= readable
        invariant forall k :: 0 <= k < i ==> buffer[k] == c[k]
        invariant forall k :: i <= k < readable ==> buffer[readerIndex + k] == c[k]
        modifies buffer
      {
        buffer[i] := buffer[readerIndex + i];
        i := i + 1;
      }
      readerIndex := 0;
      writerIndex := readable;
      assert buffer[0..readable] == c;
    }

    method Resize(size: nat)
      requires buffer.Length <= size
      modifies this`buffer
      ensures fresh(buffer) && buffer.Length == size
      ensures buffer[..old(buffer.Length)] == old(buffer[..])
    {
      var old' := buffer;
      buffer := new char[size](i requires i >= 0 reads old' => if i < old'.Length then old'[i] else '\0');
    }

    method EnsureWritableBytes(len: nat)
      requires readerIndex <= writerIndex <= buffer.Length
      modifies this`buffer, this`readerIndex, this`writerIndex, buffer
      ensures readerIndex <= writerIndex && writerIndex + len <= buffer.Length
      ensures Contents() == old(Contents())
      ensures buffer == old(buffer) || fresh(buffer)
      ensures buffer.Length <= Max(old(buffer.Length), 2 * (|Contents()| + len))
    {
      if WritableBytes() < len {
        MakeSpace(len);
      }
    }

    /** Copy bytes to the free space, which must be large enough. */
    method Fill(data: string)
      requires readerIndex <= writerIndex && writerIndex + |data| <= buffer.Length
      requires taken + Contents() == put && |Contents()| <= most
      requires buffer.Length <= Max(INITIAL_SIZE, 2 * Max(most, |Contents()| + |data|))
      modifies this`writerIndex, this`put, this`most, buffer
      ensures Valid()
      ensures Contents() == old(Contents()) + data
      ensures put == old(put) + data
      ensures most == Max(old(most), |Contents()|)
    {
      ghost var c := Contents();
      forall i | 0 <= i < |data| {
        buffer[writerIndex + i] := data[i];
      }
      writerIndex := writerIndex + |data|;
      assert Contents() == c + data;
      assert taken + (c + data) == (taken + c) + data;
      put := put + data;
      most := Max(most, |c| + |data|);
    }

    method Append(data: string)
      requires Valid()
      modifies this, buffer
      ensures Valid() && (buffer == old(buffer) || fresh(buffer))
      ensures Contents() == old(Contents()) + data
      ensures put == old(put) + data && taken == old(taken)
      ensures most == Max(old(most), |Contents()|)
    {
      EnsureWritableBytes(|data|);
      Fill(data);
    }

    /** How much one read may bring in: the free space, and the extra block if
        the free space is smaller than it. */
    function ReadCapacity(): int
      reads this
    {
      WritableBytes() + if WritableBytes() < EXTRA_SIZE then EXTRA_SIZE else 0
    }

    /** `got` is what the socket delivers, if the read does not fail; it goes to the
        free space first and overflows into the extra block, which is then
        appended.  A failed read returns -1. */
    method ReadFd(got: Option<string>) returns (n: int)
      requires Valid() && (got.Some? ==> |got.value| <= ReadCapacity())
      modifies this, buffer
      ensures Valid() && (buffer == old(buffer) || fresh(buffer))
      ensures n == if got.Some? then |got.value| else -1
      ensures Contents() == old(Contents()) + got.UnwrapOr("")
      ensures put == old(put) + got.UnwrapOr("") && taken == old(taken)
      ensures most == Max(old(most), |Contents()|)
    {
      var writable := WritableBytes();
      match got
      case None =>
        n := -1;
      case Some(data) =>
        n := |data|;
        if n <= writable {
          Fill(data);
        } else {
          Fill(data[..writable]);
          Append(data[writable..]);
          assert data == data[..writable] + data[writable..];
        }
    }
  }
}
