/** `Buffer` itself: a vector and two indices, updated in place. */
module Buffers {
  import opened BufferLayout

  class Buffer {
    var data: array<Byte>
    var reader: nat
    var writer: nat

    ghost predicate Valid()
      reads this
    {
      CHEAP_PREPEND <= reader <= writer <= data.Length
    }

    ghost function View(): (l: Layout)
      requires Valid()
      reads this, data
      ensures l.Valid() && l.Writer() == writer
    {
      Layout(data.Length, reader, data[reader..writer])
    }

    constructor ()
      ensures Valid() && fresh(data) && View() == EMPTY
    {
      data := new Byte[CHEAP_PREPEND + INITIAL_SIZE];
      reader, writer := CHEAP_PREPEND, CHEAP_PREPEND;
    }

    function ReadableBytes(): (n: nat)
      requires Valid()
      reads this, data
      ensures n == |View().content|
    {
      writer - reader
    }

    /** The readable bytes from `peek()` on. */
    function Readable(): (bytes: seq<Byte>)
      requires Valid()
      reads this, data
      ensures bytes == View().content
    {
      data[reader..writer]
    }

    method Retrieve(len: nat)
      requires Valid() && len <= ReadableBytes()
      modifies this`reader
      ensures Valid() && View() == BufferLayout.Retrieve(old(View()), len)
    {
      reader := reader + len;
    }

    method RetrieveAll()
      requires Valid()
      modifies this`reader, this`writer
      ensures Valid() && View() == BufferLayout.RetrieveAll(old(View()))
    {
      reader, writer := CHEAP_PREPEND, CHEAP_PREPEND;
    }

    method RetrieveAsString() returns (str: seq<Byte>)
      requires Valid()
      modifies this`reader, this`writer
      ensures Valid() && View() == BufferLayout.RetrieveAll(old(View()))
      ensures str == old(View()).content
    {
      str := data[reader..writer];
      RetrieveAll();
    }

    /** `make_space`, compacting branch: the source and target of the copy may overlap, and the copy
        runs forward one byte at a time. */
    method Compact()
      requires Valid() && CHEAP_PREPEND < reader
      modifies this`reader, this`writer, data
      ensures Valid() && View() == old(View()).(reader := CHEAP_PREPEND)
    {
      ghost var content := data[reader..writer];
      var readable := writer - reader;
      for i := 0 to readable
        modifies data
        invariant forall k :: 0 <= k < i ==> data[CHEAP_PREPEND + k] == content[k]
        invariant forall k :: i <= k < readable ==> data[reader + k] == content[k]
      {
        data[CHEAP_PREPEND + i] := data[reader + i];
      }
      reader := CHEAP_PREPEND;
      writer := reader + readable;
      assert data[reader..writer] == content;
    }

    /** `make_space`, growing branch: `vector::resize` keeps the elements it already has. */
    method Grow(size: nat)
      requires Valid() && data.Length <= size
      modifies this`data
      ensures Valid() && fresh(data) && reader == old(reader)
      ensures View() == old(View()).(size := size)
    {
      var bigger := new Byte[size];
      forall k | 0 <= k < data.Length {
        bigger[k] := data[k];
      }
      assert bigger[reader..writer] == data[reader..writer];
      data := bigger;
    }

    method EnsureWritableBytes(len: nat)
      requires Valid()
      modifies this, data
      ensures Valid() && (data == old(data) || fresh(data))
      ensures View() == Reserve(old(View()), len)
    {
      if data.Length - writer < len {
        if data.Length - writer + reader < len + CHEAP_PREPEND {
          Grow(len + writer);
        } else {
          Compact();
        }
      }
    }

    method Append(bytes: seq<Byte>)
      requires Valid()
      modifies this, data
      ensures Valid() && (data == old(data) || fresh(data))
      ensures View() == BufferLayout.Append(old(View()), bytes)
    {
      EnsureWritableBytes(|bytes|);
      Fill(bytes);
    }

    /** Bytes arrive behind the readable ones, where there is room, and `has_written` moves the index. */
    method Fill(bytes: seq<Byte>)
      requires Valid() && |bytes| <= data.Length - writer
      modifies this`writer, data
      ensures Valid() && writer == old(writer) + |bytes|
      ensures View() == Layout(data.Length, reader, old(View().content) + bytes)
    {
      ghost var before := data[reader..writer];
      CopyIn(data, writer, bytes);
      writer := writer + |bytes|;
      assert data[reader..writer] == data[..][reader..writer] == before + bytes;
    }

    /** `n` and `delivered` are what `readv` returned and filled in: the array's tail first, then the
        overflow area. A negative `n` is a failed read. */
    method ReadFd(n: int, delivered: seq<Byte>)
      requires Valid()
      requires n >= 0 ==> n == |delivered| <= data.Length - writer + EXTRA_SIZE
      modifies this, data
      ensures Valid() && (data == old(data) || fresh(data))
      ensures View() == if n < 0 then old(View()) else BufferLayout.ReadFd(old(View()), delivered)
    {
      if n < 0 { return; }
      var writable := data.Length - writer;
      if n <= writable {
        Fill(delivered);
      } else {
        assert delivered == delivered[..writable] + delivered[writable..];
        Fill(delivered[..writable]);
        Append(delivered[writable..]);
      }
    }
  }

  /** Bytes stored at `at` onwards, by `std::copy` or by the kernel. */
  method CopyIn(a: array<Byte>, at: nat, bytes: seq<Byte>)
    requires at + |bytes| <= a.Length
    modifies a
    ensures a[..] == old(a[..at]) + bytes + old(a[at + |bytes|..])
  {
    forall k | 0 <= k < |bytes| {
      a[at + k] := bytes[k];
    }
  }

  /** Any allowed run of operations on a real buffer: what is readable in the array afterwards is what a
      plain byte queue would hold, and a fresh buffer's array stays within the bound. */
  method Drive(buffer: Buffer, ops: seq<Op>) returns (strings: seq<seq<Byte>>)
    requires buffer.Valid() && AllowedRun(buffer.View(), ops)
    modifies buffer, buffer.data
    ensures buffer.Valid() && (buffer.data == old(buffer.data) || fresh(buffer.data))
    ensures buffer.data[buffer.reader..buffer.writer] == QueueAfter(old(buffer.View().content), ops)
    ensures strings == Strings(old(buffer.View()), ops)
    ensures old(buffer.View()) == EMPTY ==> buffer.data.Length <= CapacityBound(Peak(EMPTY, ops, 0))
  {
    RefinesByteQueue(buffer.View(), ops);
    if buffer.View() == EMPTY {
      CapacityStaysBounded(ops);
    }
    strings := PerformAll(buffer, ops);
  }

  method PerformAll(buffer: Buffer, ops: seq<Op>) returns (strings: seq<seq<Byte>>)
    requires buffer.Valid() && AllowedRun(buffer.View(), ops)
    modifies buffer, buffer.data
    ensures buffer.Valid() && (buffer.data == old(buffer.data) || fresh(buffer.data))
    ensures buffer.View() == Run(old(buffer.View()), ops) && strings == Strings(old(buffer.View()), ops)
    decreases |ops|
  {
    strings := [];
    if ops != [] {
      strings := Perform(buffer, ops[0]);
      var more := PerformAll(buffer, ops[1..]);
      strings := strings + more;
    }
  }

  /** What `retrieve_as_string` returns over a run. */
  ghost function Strings(l: Layout, ops: seq<Op>): seq<seq<Byte>>
    requires l.Valid() && AllowedRun(l, ops)
    decreases |ops|
  {
    if ops == [] then []
    else (if ops[0].RetrieveAsStringOp? then [l.content] else []) + Strings(Apply(l, ops[0]), ops[1..])
  }

  method Perform(buffer: Buffer, op: Op) returns (out: seq<seq<Byte>>)
    requires buffer.Valid() && Allowed(buffer.View(), op)
    modifies buffer, buffer.data
    ensures buffer.Valid() && (buffer.data == old(buffer.data) || fresh(buffer.data))
    ensures buffer.View() == Apply(old(buffer.View()), op)
    ensures out == if op.RetrieveAsStringOp? then [old(buffer.View().content)] else []
  {
    out := [];
    match op {
      case AppendOp(bytes) => buffer.Append(bytes);
      case RetrieveOp(len) => buffer.Retrieve(len);
      case RetrieveAllOp => buffer.RetrieveAll();
      case RetrieveAsStringOp =>
        var str := buffer.RetrieveAsString();
        out := [str];
      case ReadFdOp(bytes) => buffer.ReadFd(|bytes|, bytes);
      case ReadFdFailedOp => buffer.ReadFd(-1, []);
    }
  }
}
