/** The linear buffers (src/sockbuf.c, src/ttybuf.c) and the FIFO queues they stand for. */
module Fifo {
  import opened Wire

  // ---------------------------------------------------------------- queues

  /** What a write buffer stands for: bytes already handed to the other side, bytes still pending, where the
      pending bytes start in the array, the flow-control flag, and how many bytes the hard limit refused. */
  datatype Queue = Queue(delivered: seq<Byte>, pending: seq<Byte>, top: nat, stop: bool, lost: nat) {
    function Ptr(): nat { top + |pending| }

    /** Flow control is on exactly above the soft limit, and an empty queue is rewound. */
    ghost predicate Valid() {
      && Ptr() <= HARD
      && (stop <==> Ptr() > SOFT)
      && (pending == [] ==> top == 0)
    }

    /** Everything the queue ever accepted and did not discard, in order. */
    function Stream(): seq<Byte> { delivered + pending }

    function HasData(): (r: bool)
      ensures Valid() ==> (r <==> |pending| > 0)
    {
      Ptr() > 0
    }

    function Put(c: Byte): Queue
    {
      if Ptr() >= HARD then this.(lost := lost + 1)
      else this.(pending := pending + [c], stop := stop || Ptr() >= SOFT)
    }

    function PutN(s: seq<Byte>): Queue
      decreases |s|
    {
      if s == [] then this else Put(s[0]).PutN(s[1..])
    }

    /** A send or write of the pending bytes that reported r bytes gone (r <= 0: failed). */
    function Write(r: int): Queue
    {
      if pending == [] || r <= 0 then this
      else if r < |pending| then
        this.(delivered := delivered + pending[..r], pending := pending[r..], top := top + r)
      else Queue(delivered + pending, [], 0, false, lost)
    }

    /** A host that reads up to max bytes drains the queue as a write of that many does. */
    function Read(max: nat): Queue { if max > 0 then Write(max) else this }
  }

  const EMPTY := Queue([], [], 0, false, 0)

  /** Putting a run of bytes with room left appends exactly those bytes. */
  lemma {:induction false} PutNAppends(q: Queue, s: seq<Byte>)
    requires q.Valid()
    requires q.Ptr() + |s| <= HARD
    ensures q.PutN(s) == q.(pending := q.pending + s, stop := q.stop || q.Ptr() + |s| > SOFT)
    decreases |s|
  {
    if s == [] {
      assert q.pending + s == q.pending;
    } else {
      PutNAppends(q.Put(s[0]), s[1..]);
      assert q.pending + [s[0]] + s[1..] == q.pending + s;
    }
  }

  /** Whatever room there is, a run of bytes is queued up to the hard limit and only the rest is lost. */
  lemma {:induction false} PutNKeepsPrefix(q: Queue, s: seq<Byte>)
    requires q.Valid()
    ensures var n := if |s| <= HARD - q.Ptr() then |s| else HARD - q.Ptr();
      && q.PutN(s).Stream() == q.Stream() + s[..n]
      && q.PutN(s).lost == q.lost + |s| - n
      && q.PutN(s).delivered == q.delivered
    decreases |s|
  {
    if s == [] {
      assert q.Stream() + s[..0] == q.Stream();
    } else {
      PutNKeepsPrefix(q.Put(s[0]), s[1..]);
      if q.Ptr() < HARD {
        var n := if |s| <= HARD - q.Ptr() then |s| else HARD - q.Ptr();
        assert [s[0]] + s[1..][..n - 1] == s[..n];
        assert q.Stream() + [s[0]] + s[1..][..n - 1] == q.Stream() + s[..n];
      } else {
        assert s[1..][..0] == s[..0];
      }
    }
  }

  lemma {:induction false} PutNValid(q: Queue, s: seq<Byte>)
    requires q.Valid()
    ensures q.PutN(s).Valid()
    decreases |s|
  {
    if s == [] {
    } else {
      PutNValid(q.Put(s[0]), s[1..]);
    }
  }

  // ---------------------------------------------------------------- runs of one write buffer

  datatype QueueOp =
    | OpPut(c: Byte)
    | OpWrite(result: int)
    | OpRead(max: nat)

  function Apply(q: Queue, op: QueueOp): Queue {
    match op
    case OpPut(c) => q.Put(c)
    case OpWrite(r) => q.Write(r)
    case OpRead(max) => q.Read(max)
  }

  function RunOps(q: Queue, ops: seq<QueueOp>): Queue
    decreases |ops|
  {
    if ops == [] then q else RunOps(Apply(q, ops[0]), ops[1..])
  }

  function OfferedBy(op: QueueOp): seq<Byte> {
    if op.OpPut? then [op.c] else []
  }

  /** The bytes producers offered. */
  function Offered(ops: seq<QueueOp>): seq<Byte>
    decreases |ops|
  {
    if ops == [] then [] else OfferedBy(ops[0]) + Offered(ops[1..])
  }

  function AcceptedBy(q: Queue, op: QueueOp): seq<Byte> {
    if q.Ptr() < HARD then OfferedBy(op) else []
  }

  /** The offered bytes that found room below the hard limit. */
  function Accepted(q: Queue, ops: seq<QueueOp>): seq<Byte>
    decreases |ops|
  {
    if ops == [] then [] else AcceptedBy(q, ops[0]) + Accepted(Apply(q, ops[0]), ops[1..])
  }

  lemma WriteConserves(q: Queue, r: int)
    ensures q.Write(r).Stream() == q.Stream() && q.delivered <= q.Write(r).delivered
  {
    if 0 < r < |q.pending| {
      assert q.pending[..r] + q.pending[r..] == q.pending;
    }
  }

  lemma ReadConserves(q: Queue, max: nat)
    ensures q.Read(max).Stream() == q.Stream() && q.delivered <= q.Read(max).delivered
  {
    WriteConserves(q, max);
  }

  /** One operation conserves bytes. */
  lemma ApplyConserves(q: Queue, op: QueueOp)
    requires q.Valid()
    ensures Apply(q, op).Valid()
    ensures Apply(q, op).Stream() == q.Stream() + AcceptedBy(q, op)
    ensures q.delivered <= Apply(q, op).delivered
    ensures Apply(q, op).lost + |AcceptedBy(q, op)| == q.lost + |OfferedBy(op)|
  {
    match op
    case OpPut(c) =>
      assert q.delivered + q.pending + [c] == q.delivered + (q.pending + [c]);
    case OpWrite(r) => WriteConserves(q, r);
    case OpRead(max) => ReadConserves(q, max);
  }

  /** A write buffer is a FIFO queue under any mix of puts, partial writes and reads by the host: what came out
      followed by what is pending is what was accepted, in order; bytes go missing only at the hard limit, and
      exactly as many as the loss count says; HasData and Ready say what they seem to. */
  lemma {:induction false} RefinesFifo(q: Queue, ops: seq<QueueOp>)
    requires q.Valid()
    ensures var q' := RunOps(q, ops);
      && q'.Valid()
      && q'.Stream() == q.Stream() + Accepted(q, ops)
      && q.delivered <= q'.delivered
      && q'.lost + |Accepted(q, ops)| == q.lost + |Offered(ops)|
      && (q'.lost == q.lost ==> Accepted(q, ops) == Offered(ops))
      && (q'.HasData() <==> q'.pending != [])
      && (q'.stop <==> q'.Ptr() > SOFT)
    decreases |ops|
  {
    if ops == [] {
      assert q.Stream() + [] == q.Stream();
    } else {
      var op, rest := ops[0], ops[1..];
      var q1 := Apply(q, op);
      ApplyConserves(q, op);
      RefinesFifo(q1, rest);
      assert q.Stream() + (AcceptedBy(q, op) + Accepted(q1, rest)) == q1.Stream() + Accepted(q1, rest);
      LostGrows(q1, rest);
    }
  }

  lemma {:induction false} LostGrows(q: Queue, ops: seq<QueueOp>)
    ensures RunOps(q, ops).lost >= q.lost
    decreases |ops|
  {
    if ops == [] {
    } else {
      LostGrows(Apply(q, ops[0]), ops[1..]);
    }
  }

  // ---------------------------------------------------------------- write buffers

  lemma Slices(s: seq<Byte>, lo: nat, mid: nat, hi: nat)
    requires lo <= mid <= hi <= |s|
    ensures s[lo..hi][..mid - lo] == s[lo..mid] && s[lo..hi][mid - lo..] == s[mid..hi]
  {
  }

  /** struct st_sockBufW and struct st_ttyBufW, which have the same layout and limits. */
  class WriteBuf {
    const data: array<Byte>
    var top: nat
    var ptr: nat
    var stop: bool
    ghost var delivered: seq<Byte>
    ghost var lost: nat

    ghost predicate Valid()
      reads this, data
    {
      && data.Length == HARD
      && top <= ptr <= HARD
      && View().Valid()
    }

    ghost function View(): Queue
      requires top <= ptr <= data.Length
      reads this, data
    {
      Queue(delivered, data[top..ptr], top, stop, lost)
    }

    constructor ()
      ensures Valid() && fresh(data)
      ensures View() == EMPTY
    {
      data := new Byte[HARD];
      top, ptr, stop := 0, 0, false;
      delivered, lost := [], 0;
    }

    /** Discard what is pending; the histories count from here. */
    method Reset()
      requires Valid()
      modifies this
      ensures Valid() && View() == EMPTY
    {
      ptr, top := 0, 0;
      stop := false;
      delivered, lost := [], 0;
    }

    method HasData() returns (r: bool)
      requires Valid()
      ensures r <==> View().pending != []
    {
      r := ptr > 0;
    }

    method Ready() returns (r: bool)
      requires Valid()
      ensures r <==> ptr <= SOFT
    {
      r := !stop;
    }

    method Put1(c: Byte)
      requires Valid()
      modifies this, data
      ensures Valid() && View() == old(View()).Put(c)
    {
      if ptr >= SOFT {
        if ptr >= HARD {
          lost := lost + 1;
          return;
        } else {
          stop := true;
        }
      }
      data[ptr] := c;
      ptr := ptr + 1;
    }

    method PutN(s: seq<Byte>)
      requires Valid()
      modifies this, data
      ensures Valid() && View() == old(View()).PutN(s)
    {
      var i := 0;
      while i < |s|
        invariant 0 <= i <= |s|
        invariant Valid()
        invariant View().PutN(s[i..]) == old(View()).PutN(s)
      {
        Put1(s[i]);
        assert s[i..][1..] == s[i + 1..];
        i := i + 1;
      }
    }

    /** sockBufWrite and ttyBufWrite, where r is what send or write returned. */
    method Write(r: int) returns (ok: bool)
      requires Valid()
      modifies this
      ensures Valid() && View() == old(View()).Write(r)
      ensures ok <==> old(View()).pending == [] || r > 0
    {
      var wl := ptr - top;
      if wl == 0 {
        return true;
      }
      if r <= 0 {
        return false;
      }
      if r < wl {
        assert data[top..ptr][..r] == data[top..top + r];
        assert data[top..ptr][r..] == data[top + r..ptr];
        delivered := delivered + data[top..top + r];
        top := top + r;
        return true;
      }
      delivered := delivered + data[top..ptr];
      ptr, top := 0, 0;
      stop := false;
      ok := true;
    }

    /** m2k_read_to_app: copy up to max bytes out. */
    method ReadToApp(max: nat) returns (bytes: seq<Byte>)
      requires Valid()
      modifies this
      ensures Valid() && View() == old(View()).Read(max)
      ensures bytes <= old(View()).pending
      ensures |bytes| == if max < |old(View()).pending| then max else |old(View()).pending|
    {
      var available := ptr - top;
      var n := if available < max then available else max;
      bytes := data[top..top + n];
      assert bytes == View().pending[..n];
      Drop(n);
    }

    /** The first n pending bytes have gone out. */
    method Drop(n: nat)
      requires Valid() && n <= ptr - top
      modifies this
      ensures Valid() && View() == old(View()).Read(n)
    {
      Slices(data[..], top, top + n, ptr);
      delivered := delivered + data[top..top + n];
      top := top + n;
      if top >= ptr {
        ptr, top := 0, 0;
        stop := false;
      }
    }
  }

  // ---------------------------------------------------------------- read buffers

  datatype AppTake = AppTake(unread: seq<Byte>, consumed: nat, wouldBlock: bool)

  /** m2k_write_from_app: take what fits behind the unread residue. */
  function WriteFromApp(unread: seq<Byte>, bytes: seq<Byte>): (w: AppTake)
    ensures |unread| <= CHUNK ==>
              && |w.unread| <= CHUNK
              && (w.consumed == |bytes| || w.consumed == CHUNK - |unread|) && w.consumed <= |bytes|
              && w.unread == unread + bytes[..w.consumed]
              && (w.wouldBlock <==> bytes != [] && w.consumed == 0)
  {
    assert unread + bytes[..0] == unread;
    if bytes == [] then AppTake(unread, 0, false)
    else if |unread| >= CHUNK then AppTake(unread, 0, true)
    else
      var room := CHUNK - |unread|;
      var take := if |bytes| < room then |bytes| else room;
      AppTake(unread + bytes[..take], take, false)
  }

  /** struct st_sockBufR, and struct st_ttyBufR without its time stamps. */
  class ReadBuf {
    const data: array<Byte>
    var ptr: nat
    var end: nat

    ghost predicate Valid()
      reads this, data
    {
      data.Length == CHUNK && ptr <= end <= CHUNK
    }

    ghost function Unread(): seq<Byte>
      requires ptr <= end <= data.Length
      reads this, data
    {
      data[ptr..end]
    }

    constructor ()
      ensures Valid() && fresh(data) && Unread() == []
    {
      data := new Byte[CHUNK];
      ptr, end := 0, 0;
    }

    method Reset()
      requires Valid()
      modifies this
      ensures Valid() && Unread() == []
    {
      ptr, end := 0, 0;
    }

    method HasData() returns (r: bool)
      requires Valid()
      ensures r <==> Unread() != []
    {
      r := ptr < end;
    }

    /** The next byte, or -1 when there is none. */
    method Get1() returns (c: int)
      requires Valid()
      modifies this`ptr
      ensures Valid()
      ensures old(Unread()) == [] ==> c == -1 && Unread() == []
      ensures old(Unread()) != [] ==> c == old(Unread())[0] && Unread() == old(Unread())[1..]
    {
      if ptr >= end {
        return -1;
      }
      c := data[ptr];
      ptr := ptr + 1;
    }

    /** recv or read delivered one chunk; whatever was unread is overwritten. */
    method Fill(bytes: seq<Byte>)
      requires Valid() && |bytes| <= CHUNK
      modifies this, data
      ensures Valid() && Unread() == bytes
    {
      forall i | 0 <= i < |bytes| {
        data[i] := bytes[i];
      }
      ptr, end := 0, |bytes|;
    }

    /** m2k_write_from_app: compact the residue to the front, then append what fits. Nothing unread is lost or
        reordered, the count is min(length, free space), and the call would block exactly when nothing fits. */
    method Append(bytes: seq<Byte>) returns (consumed: nat, wouldBlock: bool)
      requires Valid()
      modifies this, data
      ensures Valid()
      ensures AppTake(Unread(), consumed, wouldBlock) == WriteFromApp(old(Unread()), bytes)
      ensures Unread() == old(Unread()) + bytes[..consumed]
      ensures var free := CHUNK - |old(Unread())|; consumed == if |bytes| < free then |bytes| else free
      ensures wouldBlock <==> bytes != [] && consumed == 0
    {
      if |bytes| == 0 {
        assert old(Unread()) + bytes[..0] == old(Unread());
        return 0, false;
      }
      var residue := end - ptr;
      if residue >= CHUNK {
        assert old(Unread()) + bytes[..0] == old(Unread());
        return 0, true;
      }
      var room := CHUNK - residue;
      var take := if |bytes| < room then |bytes| else room;
      Compact();
      TakeIn(bytes[..take]);
      return take, false;
    }

    /** memmove of the residue to the front. */
    method Compact()
      requires Valid()
      modifies this, data
      ensures Valid() && ptr == 0 && Unread() == old(Unread())
    {
      var residue := end - ptr;
      forall i | 0 <= i < residue {
        data[i] := data[ptr + i];
      }
      ptr, end := 0, residue;
    }

    /** memcpy of what fits behind it. */
    method TakeIn(bytes: seq<Byte>)
      requires Valid() && ptr == 0 && end + |bytes| <= CHUNK
      modifies this`end, data
      ensures Valid() && Unread() == old(Unread()) + bytes
    {
      forall i | 0 <= i < |bytes| {
        data[end + i] := bytes[i];
      }
      end := end + |bytes|;
    }
  }
}
