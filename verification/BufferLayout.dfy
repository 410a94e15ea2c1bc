/** The byte buffer of buffer/Buffer.hpp and buffer/Buffer.cpp.

    A `Layout` is what can be observed of the backing array: its size, where the readable part
    starts, and the readable bytes. The class in module `Buffers` works in place on a real array;
    each of its methods is proved to move the layout as the function of the same name here says.
    What the buffer promises over whole runs (it is a byte queue; its array stays small) is proved
    about those functions. */
module BufferLayout {

  type Byte = bv8

  const CHEAP_PREPEND: nat := 8
  const INITIAL_SIZE: nat := 1024
  /** Size of the overflow area that `read_fd` keeps on the stack. */
  const EXTRA_SIZE: nat := 65536

  datatype Layout = Layout(size: nat, reader: nat, content: seq<Byte>) {
    function Writer(): nat { reader + |content| }

    predicate Valid() { CHEAP_PREPEND <= reader && Writer() <= size }

    function Writable(): nat
      requires Valid()
    { size - Writer() }
  }

  const EMPTY: Layout := Layout(CHEAP_PREPEND + INITIAL_SIZE, CHEAP_PREPEND, [])

  /** Whether `make_space` compacts rather than resizes. */
  predicate Compacts(l: Layout, len: nat)
    requires l.Valid()
  {
    l.Writable() < len && len + CHEAP_PREPEND <= l.Writable() + l.reader
  }

  /** `ensure_writeable_bytes`: keep, compact or resize. */
  function Reserve(l: Layout, len: nat): (r: Layout)
    requires l.Valid()
    ensures r.Valid() && len <= r.Writable() && r.content == l.content
    ensures Compacts(l, len) ==> CHEAP_PREPEND < l.reader
  {
    if len <= l.Writable() then l
    else if Compacts(l, len) then l.(reader := CHEAP_PREPEND)
    else l.(size := len + l.Writer())
  }

  function Append(l: Layout, bytes: seq<Byte>): (r: Layout)
    requires l.Valid()
    ensures r.Valid() && r.content == l.content + bytes
  {
    var s := Reserve(l, |bytes|);
    s.(content := s.content + bytes)
  }

  function Retrieve(l: Layout, len: nat): (r: Layout)
    requires l.Valid() && len <= |l.content|
    ensures r.Valid() && l.content == l.content[..len] + r.content
  {
    l.(reader := l.reader + len, content := l.content[len..])
  }

  function RetrieveAll(l: Layout): (r: Layout)
    requires l.Valid()
    ensures r.Valid() && r.content == [] && r.reader == CHEAP_PREPEND && r.size == l.size
  {
    Layout(l.size, CHEAP_PREPEND, [])
  }

  /** `read_fd` after `readv` delivered `bytes`: first into the array's tail, the rest by `append`. */
  function ReadFd(l: Layout, bytes: seq<Byte>): (r: Layout)
    requires l.Valid()
    ensures r.Valid() && r.content == l.content + bytes
  {
    var w := l.Writable();
    if |bytes| <= w then l.(content := l.content + bytes)
    else
      var full := l.(content := l.content + bytes[..w]);
      assert full.content + bytes[w..] == l.content + bytes;
      Append(full, bytes[w..])
  }

  // ---------------------------------------------------------------- runs

  datatype Op =
    | AppendOp(bytes: seq<Byte>)
    | RetrieveOp(len: nat)
    | RetrieveAllOp
    | RetrieveAsStringOp
    | ReadFdOp(bytes: seq<Byte>)
    | ReadFdFailedOp

  /** What the source asserts of its callers, and how much one `readv` can deliver. */
  predicate Allowed(l: Layout, op: Op)
    requires l.Valid()
  {
    match op
    case RetrieveOp(len) => len <= |l.content|
    case ReadFdOp(bytes) => |bytes| <= l.Writable() + EXTRA_SIZE
    case _ => true
  }

  function Apply(l: Layout, op: Op): (r: Layout)
    requires l.Valid() && Allowed(l, op)
    ensures r.Valid()
  {
    match op
    case AppendOp(bytes) => Append(l, bytes)
    case RetrieveOp(len) => Retrieve(l, len)
    case RetrieveAllOp => RetrieveAll(l)
    case RetrieveAsStringOp => RetrieveAll(l)
    case ReadFdOp(bytes) => ReadFd(l, bytes)
    case ReadFdFailedOp => l
  }

  predicate AllowedRun(l: Layout, ops: seq<Op>)
    requires l.Valid()
    decreases |ops|
  {
    ops == [] || (Allowed(l, ops[0]) && AllowedRun(Apply(l, ops[0]), ops[1..]))
  }

  function Run(l: Layout, ops: seq<Op>): (r: Layout)
    requires l.Valid() && AllowedRun(l, ops)
    ensures r.Valid()
    decreases |ops|
  {
    if ops == [] then l else Run(Apply(l, ops[0]), ops[1..])
  }

  /** The reference object: a plain queue of bytes that knows nothing of arrays or indices. */
  function QueueAfter(q: seq<Byte>, ops: seq<Op>): seq<Byte>
    decreases |ops|
  {
    if ops == [] then q
    else
      var next := match ops[0]
        case AppendOp(bytes) => q + bytes
        case ReadFdOp(bytes) => q + bytes
        case RetrieveOp(len) => if len <= |q| then q[len..] else []
        case RetrieveAllOp => []
        case RetrieveAsStringOp => []
        case ReadFdFailedOp => q;
      QueueAfter(next, ops[1..])
  }

  /** The buffer is a byte queue, through every compaction, resize and split read. */
  lemma {:induction false} RefinesByteQueue(l: Layout, ops: seq<Op>)
    requires l.Valid() && AllowedRun(l, ops)
    ensures Run(l, ops).content == QueueAfter(l.content, ops)
    decreases |ops|
  {
    if ops != [] {
      RefinesByteQueue(Apply(l, ops[0]), ops[1..]);
    }
  }

  /** The most bytes ever readable at once. */
  function Peak(l: Layout, ops: seq<Op>, seen: nat): nat
    requires l.Valid() && AllowedRun(l, ops)
    decreases |ops|
  {
    var now := if seen < |l.content| then |l.content| else seen;
    if ops == [] then now else Peak(Apply(l, ops[0]), ops[1..], now)
  }

  /** Up to the initial 1024 bytes the array is never resized. */
  function CapacityBound(peak: nat): nat {
    if peak <= INITIAL_SIZE then CHEAP_PREPEND + INITIAL_SIZE else 2 * peak + 7
  }

  /** A resize happens only while the free front is shorter than the request plus 8. */
  lemma {:induction false} ApplyStaysBounded(l: Layout, op: Op, peak: nat)
    requires l.Valid() && Allowed(l, op) && EMPTY.size <= l.size <= CapacityBound(peak)
    requires |l.content| <= peak && |Apply(l, op).content| <= peak
    ensures EMPTY.size <= Apply(l, op).size <= CapacityBound(peak)
  {
  }

  lemma {:induction false} BoundedFrom(l: Layout, ops: seq<Op>, seen: nat)
    requires l.Valid() && AllowedRun(l, ops)
    requires |l.content| <= seen && EMPTY.size <= l.size <= CapacityBound(seen)
    ensures EMPTY.size <= Run(l, ops).size <= CapacityBound(Peak(l, ops, seen))
    decreases |ops|
  {
    if ops != [] {
      var next := Apply(l, ops[0]);
      var now := if seen < |next.content| then |next.content| else seen;
      ApplyStaysBounded(l, ops[0], now);
      BoundedFrom(next, ops[1..], now);
    }
  }

  /** Over any run of a fresh buffer the array is 1032 bytes while at most 1024 are ever readable at once,
      and otherwise at most 2*M + 7, M being the most bytes ever readable at once. */
  lemma {:induction false} CapacityStaysBounded(ops: seq<Op>)
    requires AllowedRun(EMPTY, ops)
    ensures EMPTY.size <= Run(EMPTY, ops).size <= CapacityBound(Peak(EMPTY, ops, 0))
  {
    BoundedFrom(EMPTY, ops, 0);
  }

  /** A run that holds `more` at its peak, after one byte less has come and gone. */
  function TightRun(more: seq<Byte>): seq<Op> {
    if |more| <= INITIAL_SIZE then [AppendOp(more)]
    else [AppendOp(more[1..]), RetrieveOp(|more| - 1), AppendOp(more)]
  }

  /** The bound is attained at every peak, so no smaller one holds. */
  lemma {:induction false} CapacityBoundIsTight(more: seq<Byte>)
    ensures AllowedRun(EMPTY, TightRun(more)) && Peak(EMPTY, TightRun(more), 0) == |more|
    ensures Run(EMPTY, TightRun(more)).size == CapacityBound(|more|)
  {
    var ops := TightRun(more);
    if |more| <= INITIAL_SIZE {
      var a := Apply(EMPTY, ops[0]);
      assert ops[1..] == [] && a.content == more;
      assert AllowedRun(a, []) && Run(a, []) == a && Peak(a, [], 0) == |more|;
    } else {
      var n := |more| - 1;
      var a := Apply(EMPTY, ops[0]);
      assert a == Layout(CHEAP_PREPEND + n, CHEAP_PREPEND, more[1..]);
      var b := Apply(a, ops[1]);
      assert b == Layout(CHEAP_PREPEND + n, CHEAP_PREPEND + n, []);
      var c := Apply(b, ops[2]);
      assert c == Layout(2 * |more| + 7, CHEAP_PREPEND + n, more);
      assert ops[1..] == [ops[1], ops[2]] && ops[1..][1..] == [ops[2]] && ops[1..][1..][1..] == [];
      assert AllowedRun(c, []) && Run(c, []) == c && Peak(c, [], n) == |more|;
      assert AllowedRun(b, [ops[2]]) && Run(b, [ops[2]]) == c && Peak(b, [ops[2]], n) == |more|;
      assert AllowedRun(a, ops[1..]) && Run(a, ops[1..]) == c && Peak(a, ops[1..], 0) == |more|;
    }
  }
}
