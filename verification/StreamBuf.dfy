/** basic_streambuf: a bounded byte queue in one buffer, with get and put positions. */
module StreamBuf {
  type Byte = bv8

  const BUFFER_DELTA := 128

  function Min(a: int, b: int): int { if a <= b then a else b }
  function Max(a: int, b: int): int { if a >= b then a else b }

  /** static_cast<int> of a 64-bit size. */
  function AsInt(n: int): int {
    (n + 0x8000_0000) % 0x1_0000_0000 - 0x8000_0000
  }

  /** The cast keeps the number exactly when it is below 2 GiB. */
  lemma AsIntExact(n: nat)
    ensures AsInt(n) == n <==> n < 0x8000_0000
  {
  }

  /** From 2 GiB up to 4 GiB it comes out 4 GiB too low. */
  lemma AsIntWraps(n: nat)
    requires 0x8000_0000 <= n < 0x1_0000_0000
    ensures AsInt(n) == n - 0x1_0000_0000
  {
  }

  /** The argument or result of a streambuf operation: a character, or end of file. */
  datatype IntType = Eof | Char(c: Byte)

  /** The buffer after its bytes from g to p have been moved to its start. */
  function Shifted(b: seq<Byte>, g: int, p: int): (r: seq<Byte>)
    requires 0 <= g <= p <= |b|
    ensures |r| == |b|
  {
    b[g..p] + b[p - g..]
  }

  /** The queue repeats itself with period g, which it does trivially when g is 0 or at least its
      length. */
  ghost predicate Periodic(q: seq<Byte>, g: int) {
    forall i :: 0 <= i < |q| && 0 <= i + g < |q| ==> q[i + g] == q[i]
  }

  /** When a call fails after the shift the positions are the old ones. What they then delimit is
      still the old input exactly when the input repeats itself with the period g. */
  lemma SurvivesFailureIff(b: seq<Byte>, g: int, p: int)
    requires 0 <= g <= p <= |b|
    ensures Shifted(b, g, p)[g..p] == b[g..p] <==> Periodic(b[g..p], g)
  {
    var s, q := Shifted(b, g, p), b[g..p];
    forall i | 0 <= i < |q| ensures s[g..p][i] == if i + g < |q| then q[i + g] else q[i] {
      assert s[g..p][i] == s[g + i];
    }
    if Periodic(q, g) { assert s[g..p] == q; }
    if s[g..p] == q {
      forall i | 0 <= i < |q| && 0 <= i + g < |q| ensures q[i + g] == q[i] { assert s[g..p][i] == q[i]; }
    }
  }

  /** First in, first out, and nothing lost: the queue holds what arrived but the first bytes. */
  ghost predicate IsQueue(input: seq<Byte>, arrived: seq<Byte>, consumed: int) {
    0 <= consumed <= |arrived| && input == arrived[consumed..]
  }

  lemma QueueAppend(input: seq<Byte>, arrived: seq<Byte>, consumed: int, bytes: seq<Byte>)
    requires IsQueue(input, arrived, consumed)
    ensures IsQueue(input + bytes, arrived + bytes, consumed)
  {
  }

  lemma QueueDrop(input: seq<Byte>, arrived: seq<Byte>, consumed: int, n: nat)
    requires IsQueue(input, arrived, consumed) && n <= |input|
    ensures IsQueue(input[n..], arrived, consumed + n)
  {
  }

  lemma ShiftedPrefix(b: seq<Byte>, g: int, p: int)
    requires 0 <= g <= p <= |b|
    ensures Shifted(b, g, p)[..p - g] == b[g..p]
    ensures g == 0 ==> Shifted(b, g, p) == b
  {
  }

  class StreamBuffer {
    const maxSize: nat
    var buffer: array<Byte>
    // offsets of gptr, egptr, pptr and epptr
    var gnext: int
    var gend: int
    var pnext: int
    var pend: int
    // every byte that ever joined the input sequence, and how many of them were consumed
    ghost var arrived: seq<Byte>
    ghost var consumed: int

    ghost predicate Valid()
      reads this
    {
      0 <= gnext <= gend <= pnext <= pend <= maxSize && buffer.Length == Max(pend, 1)
    }

    /** The input sequence. */
    ghost function Input(): (s: seq<Byte>)
      reads this, buffer
      requires Valid()
      ensures |s| == pnext - gnext <= maxSize
    {
      buffer[gnext..pnext]
    }

    /** The history of the buffer and its input sequence agree. */
    ghost predicate Fifo()
      reads this, buffer
      requires Valid()
    {
      IsQueue(Input(), arrived, consumed)
    }

    constructor (maximumSize: nat)
      ensures Valid() && Fifo() && Input() == [] && fresh(buffer) && maxSize == maximumSize
      ensures arrived == [] && consumed == 0 && gnext == 0
      ensures pend == if maximumSize < 128 then maximumSize else 128
    {
      maxSize := maximumSize;
      var room := Min(maximumSize, BUFFER_DELTA);
      buffer := new Byte[Max(room, 1)](_ => 0);
      gnext, gend, pnext, pend := 0, 0, 0, room;
      arrived, consumed := [], 0;
    }

    /** memmove to the start of the buffer. */
    method ShiftToStart(from: int, to: int)
      requires 0 <= from <= to <= buffer.Length
      modifies buffer
      ensures buffer[..] == Shifted(old(buffer[..]), from, to)
    {
      for i := 0 to to - from
        invariant forall k :: 0 <= k < i ==> buffer[k] == old(buffer[from + k])
        invariant forall k :: i <= k < buffer.Length ==> buffer[k] == old(buffer[k])
      {
        buffer[i] := buffer[from + i];
      }
    }

    /** buffer_.resize to a larger size. */
    method Grow(size: nat)
      requires buffer.Length <= size
      modifies this`buffer
      ensures fresh(buffer) && buffer.Length == size
      ensures forall k :: 0 <= k < old(buffer).Length ==> buffer[k] == old(buffer[k])
    {
      var bigger := new Byte[size](_ => 0);
      for i := 0 to buffer.Length
        invariant buffer == old(buffer)
        invariant forall k :: 0 <= k < i ==> bigger[k] == buffer[k]
      {
        bigger[i] := buffer[i];
      }
      buffer := bigger;
    }

    /** reserve: false is the length_error. */
    method Reserve(n: nat) returns (ok: bool)
      requires Valid()
      modifies this`buffer, this`gnext, this`gend, this`pnext, this`pend, buffer
      ensures Valid() && (buffer == old(buffer) || fresh(buffer))
      ensures ok <==> |old(Input())| + n <= maxSize
      ensures ok ==> Input() == old(Input()) && n <= pend - pnext
      ensures !ok ==> gnext == old(gnext) && pnext == old(pnext) && buffer == old(buffer)
                      && buffer[..] == Shifted(old(buffer[..]), gnext, pnext)
      ensures !ok ==> (Input() == old(Input()) <==> Periodic(old(Input()), gnext))
    {
      hide Shifted, Periodic;
      var pnext', pend' := pnext, pend;
      if n <= pend' - pnext' { return true; }
      if gnext > 0 {
        pnext' := pnext' - gnext;
        ShiftToStart(gnext, pnext);
      }
      ShiftedPrefix(old(buffer[..]), gnext, pnext);
      assert buffer[..][..pnext'] == old(Input());
      if n > pend' - pnext' {
        if n <= maxSize && pnext' <= maxSize - n {
          pend' := pnext' + n;
          Grow(Max(pend', 1));
        } else {
          SurvivesFailureIff(old(buffer[..]), gnext, pnext);
          assert Input() == buffer[..][gnext..pnext] && old(Input()) == old(buffer[..])[gnext..pnext];
          return false;
        }
      }
      assert buffer[..pnext'] == old(Input());
      gnext, gend, pnext, pend := 0, pnext', pnext', pend';
      return true;
    }

    /** prepare, up to the buffer object: where the n writable bytes start. */
    method Prepare(n: nat) returns (ok: bool, start: int)
      requires Valid()
      modifies this`buffer, this`gnext, this`gend, this`pnext, this`pend, buffer
      ensures Valid() && (buffer == old(buffer) || fresh(buffer))
      ensures ok <==> |old(Input())| + n <= maxSize
      ensures ok ==> Input() == old(Input()) && (old(Fifo()) ==> Fifo())
      ensures ok ==> start == pnext && start + n <= buffer.Length && start + n <= pend
      ensures !ok ==> gnext == old(gnext) && pnext == old(pnext) && buffer == old(buffer)
                      && buffer[..] == Shifted(old(buffer[..]), gnext, pnext)
      ensures !ok ==> (Input() == old(Input()) <==> Periodic(old(Input()), gnext))
    {
      ok := Reserve(n);
      start := pnext;
    }

    /** commit */
    method Commit(n: nat)
      requires Valid()
      modifies this`pnext, this`gend, this`arrived
      ensures var moved := Min(n, pend - old(pnext));
        pnext == old(pnext) + AsInt(moved) && gend == pnext
        && (moved < 0x8000_0000 ==>
              Valid() && Input() == old(Input() + buffer[pnext..pnext + Min(n, pend - pnext)])
              && arrived == old(arrived + buffer[pnext..pnext + Min(n, pend - pnext)])
              && (old(Fifo()) ==> Fifo()))
    {
      hide AsInt, IsQueue;
      var moved := Min(n, pend - pnext);
      AsIntExact(moved);
      ghost var bytes := buffer[pnext..pnext + moved];
      assert buffer[gnext..pnext + moved] == Input() + bytes;
      if Fifo() { QueueAppend(Input(), arrived, consumed, bytes); }
      arrived := arrived + bytes;
      pnext := pnext + AsInt(moved);
      gend := pnext;
    }

    /** consume */
    method Consume(n: nat)
      requires Valid()
      modifies this`gnext, this`gend, this`consumed
      ensures var dropped := Min(n, |old(Input())|);
        gnext == old(gnext) + AsInt(dropped) && gend == pnext
        && (dropped < 0x8000_0000 ==>
              Valid() && Input() == old(Input())[dropped..] && consumed == old(consumed) + dropped
              && (old(Fifo()) ==> Fifo()))
    {
      hide AsInt, IsQueue;
      ghost var input, fifo := Input(), Fifo();
      if gend < pnext { gend := pnext; }
      var dropped := n;
      if gnext + n > pnext { dropped := pnext - gnext; }
      assert dropped == Min(n, |input|);
      AsIntExact(dropped);
      if fifo { QueueDrop(input, arrived, consumed, dropped); }
      consumed := consumed + dropped;
      assert buffer[gnext + dropped..pnext] == input[dropped..];
      gnext := gnext + AsInt(dropped);
    }

    /** underflow: the next byte, which stays where it is. */
    method Underflow() returns (r: IntType)
      requires Valid()
      modifies this`gend
      ensures Valid() && Input() == old(Input()) && (old(Fifo()) ==> Fifo())
      ensures r == if Input() == [] then Eof else Char(Input()[0])
      ensures Input() != [] ==> gnext < gend
    {
      if gnext < pnext {
        gend := pnext;
        return Char(buffer[gnext]);
      }
      return Eof;
    }

    /** overflow: one byte more, growing the buffer in steps of at most 128 bytes. */
    method Overflow(c: IntType) returns (ok: bool)
      requires Valid()
      modifies this, buffer
      ensures Valid() && (buffer == old(buffer) || fresh(buffer))
      ensures ok <==> c.Eof? || |old(Input())| < maxSize
      ensures ok ==> Input() == (if c.Eof? then old(Input()) else old(Input()) + [c.c]) && (old(Fifo()) ==> Fifo())
      ensures !ok ==> Input() == old(Input())
      ensures arrived == (if ok && c.Char? then old(arrived) + [c.c] else old(arrived)) && consumed == old(consumed)
    {
      if c.Eof? { return true; }
      ok := MakeRoom();
      if ok { PutChar(c.c); }
    }

    /** What overflow does when the put area is full. */
    method MakeRoom() returns (ok: bool)
      requires Valid()
      modifies this`buffer, this`gnext, this`gend, this`pnext, this`pend, buffer
      ensures Valid() && (buffer == old(buffer) || fresh(buffer))
      ensures ok <==> |old(Input())| < maxSize
      ensures Input() == old(Input()) && (ok ==> pnext < pend)
    {
      if pnext != pend { return true; }
      var bufferSize := pnext - gnext;
      if bufferSize < maxSize && maxSize - bufferSize < BUFFER_DELTA {
        ok := Reserve(maxSize - bufferSize);
      } else {
        ok := Reserve(BUFFER_DELTA);
      }
      if !ok {
        assert gnext == 0;
      }
    }

    /** *pptr() = c; pbump(1) */
    method PutChar(c: Byte)
      requires Valid() && pnext < pend
      modifies this`pnext, this`arrived, buffer
      ensures Valid() && Input() == old(Input()) + [c] && (old(Fifo()) ==> Fifo())
      ensures arrived == old(arrived) + [c]
    {
      hide IsQueue;
      if Fifo() { QueueAppend(Input(), arrived, consumed, [c]); }
      buffer[pnext] := c;
      arrived := arrived + [c];
      pnext := pnext + 1;
    }

    /** The caller of prepare fills in the bytes it was given. */
    method Fill(start: int, bytes: seq<Byte>)
      requires Valid() && pnext <= start && start + |bytes| <= pend
      modifies buffer
      ensures Valid() && Input() == old(Input()) && (old(Fifo()) ==> Fifo())
      ensures buffer[start..start + |bytes|] == bytes
    {
      for i := 0 to |bytes|
        invariant forall k :: 0 <= k < start ==> buffer[k] == old(buffer[k])
        invariant buffer[start..start + i] == bytes[..i]
      {
        buffer[start + i] := bytes[i];
      }
    }

    /** The documented use: prepare, write, commit. A failure leaves what a failed prepare leaves;
        from 2 GiB on the cast in commit puts the end of the input in the wrong place. */
    method Send(bytes: seq<Byte>) returns (ok: bool)
      requires Valid()
      modifies this, buffer
      ensures buffer == old(buffer) || fresh(buffer)
      ensures ok <==> |old(Input())| + |bytes| <= maxSize
      ensures !ok ==> Valid() && (Input() == old(Input()) <==> Periodic(old(Input()), gnext)) && gnext == old(gnext)
      ensures ok && |bytes| < 0x8000_0000 ==>
        Valid() && Input() == old(Input()) + bytes && (old(Fifo()) ==> Fifo())
      ensures ok && |bytes| >= 0x8000_0000 ==> pnext - gnext == |old(Input())| + AsInt(|bytes|)
      ensures |bytes| < 0x8000_0000 ==> arrived == if ok then old(arrived) + bytes else old(arrived)
      ensures consumed == old(consumed)
    {
      hide Shifted, Periodic, IsQueue, AsInt;
      var start;
      ok, start := Prepare(|bytes|);
      if !ok { return; }
      Fill(start, bytes);
      Commit(|bytes|);
    }
  }

  // ---------------------------------------------------------------- whole runs

  /** A call by a client. */
  datatype Op = Write(bytes: seq<Byte>) | Put(c: Byte) | Take(n: nat)

  /** What is left in the queue, how many calls were made, and what they handed over and took. */
  datatype Outcome = Outcome(queue: seq<Byte>, done: nat, given: seq<Byte>, taken: nat)

  /** What the calls do to a bounded queue; a call that does not fit ends the run. */
  function Served(q: seq<Byte>, ops: seq<Op>, maxSize: nat): (r: Outcome)
    ensures r.done <= |ops|
    decreases |ops|
  {
    if ops == [] || !Fits(q, ops[0], maxSize) then Outcome(q, 0, [], 0)
    else
      var r := Served(After(q, ops[0]), ops[1..], maxSize);
      Outcome(r.queue, r.done + 1, Given(ops[0]) + r.given, Dropped(q, ops[0]) + r.taken)
  }

  predicate Fits(q: seq<Byte>, op: Op, maxSize: nat) {
    match op
    case Write(bytes) => |q| + |bytes| <= maxSize
    case Put(_) => |q| < maxSize
    case Take(_) => true
  }

  function After(q: seq<Byte>, op: Op): seq<Byte> {
    match op
    case Write(bytes) => q + bytes
    case Put(c) => q + [c]
    case Take(n) => q[Min(n, |q|)..]
  }

  function Given(op: Op): seq<Byte> {
    match op
    case Write(bytes) => bytes
    case Put(c) => [c]
    case Take(_) => []
  }

  /** All bytes that the calls hand over. */
  function AllGiven(ops: seq<Op>): seq<Byte> {
    if ops == [] then [] else Given(ops[0]) + AllGiven(ops[1..])
  }

  function Dropped(q: seq<Byte>, op: Op): nat {
    match op
    case Write(_) => 0
    case Put(_) => 0
    case Take(n) => Min(n, |q|)
  }

  lemma AfterIs(q: seq<Byte>, op: Op, rest: seq<Byte>)
    ensures Dropped(q, op) <= |q|
    ensures After(q, op) + rest == (q + (Given(op) + rest))[Dropped(q, op)..]
  {
  }

  lemma DropTwice(s: seq<Byte>, a: nat, b: nat)
    requires a <= |s| && b <= |s| - a
    ensures s[a..][b..] == s[a + b..]
  {
  }

  /** First in, first out, over any run: the queue is what was there and what the calls handed
      over, without its first bytes, as many as the calls took. */
  lemma {:induction false} ServedInOrder(q: seq<Byte>, ops: seq<Op>, maxSize: nat)
    requires |q| <= maxSize
    ensures var r := Served(q, ops, maxSize);
      r.given == AllGiven(ops[..r.done]) && r.taken <= |q + r.given| && r.queue == (q + r.given)[r.taken..]
      && |r.queue| <= maxSize
    decreases |ops|
  {
    hide After, Given, Dropped;
    var r := Served(q, ops, maxSize);
    if r.done == 0 {
      assert q + r.given == q;
    } else {
      AfterFits(q, ops[0], maxSize);
      ServedInOrder(After(q, ops[0]), ops[1..], maxSize);
      var later := Served(After(q, ops[0]), ops[1..], maxSize);
      assert ops[..r.done][0] == ops[0] && ops[..r.done][1..] == ops[1..][..r.done - 1];
      AfterIs(q, ops[0], later.given);
      DropTwice(q + r.given, Dropped(q, ops[0]), later.taken);
    }
  }

  lemma AfterFits(q: seq<Byte>, op: Op, maxSize: nat)
    requires |q| <= maxSize && Fits(q, op, maxSize)
    ensures |After(q, op)| <= maxSize
  {
  }

  /** The casts in commit and consume are exact for every single call. */
  predicate Small(op: Op) {
    match op
    case Write(bytes) => |bytes| < 0x8000_0000
    case Put(_) => true
    case Take(n) => n < 0x8000_0000
  }

  method TakeSome(b: StreamBuffer, n: nat)
    requires b.Valid() && n < 0x8000_0000
    modifies b`gnext, b`gend, b`consumed
    ensures b.Valid() && b.Input() == old(b.Input())[Min(n, |old(b.Input())|)..] && (old(b.Fifo()) ==> b.Fifo())
    ensures b.consumed == old(b.consumed) + Min(n, |old(b.Input())|)
  {
    hide IsQueue, AsInt;
    b.Consume(n);
  }

  /** One call of a client. */
  method ServeOne(b: StreamBuffer, op: Op) returns (ok: bool)
    requires b.Valid() && Small(op)
    modifies b, b.buffer
    ensures b.Valid() && (b.buffer == old(b.buffer) || fresh(b.buffer))
    ensures ok <==> Fits(old(b.Input()), op, b.maxSize)
    ensures ok ==> b.Input() == After(old(b.Input()), op) && (old(b.Fifo()) ==> b.Fifo())
    ensures ok ==> b.arrived == old(b.arrived) + Given(op)
    ensures ok ==> b.consumed == old(b.consumed) + Dropped(old(b.Input()), op)
    ensures !ok ==> b.arrived == old(b.arrived) && b.consumed == old(b.consumed)
    ensures !ok && op.Put? ==> b.Input() == old(b.Input())
    ensures !ok && op.Write? ==> (b.Input() == old(b.Input()) <==> Periodic(old(b.Input()), b.gnext))
  {
    hide IsQueue, Periodic, StreamBuffer.Fifo, AsInt, Min;
    match op {
      case Write(bytes) => ok := b.Send(bytes);
      case Put(c) => ok := b.Overflow(Char(c));
      case Take(n) =>
        TakeSome(b, n);
        assert b.arrived + [] == b.arrived;
        ok := true;
    }
  }

  /** How far a run of calls has come: what is left to do leads to the outcome of the whole run. */
  ghost predicate Progress(q0: seq<Byte>, a0: seq<Byte>, c0: int, ops: seq<Op>, maxSize: nat, done: nat,
                           q: seq<Byte>, a: seq<Byte>, c: int) {
    done <= |ops|
    && var whole, rest := Served(q0, ops, maxSize), Served(q, ops[done..], maxSize);
       whole.done == done + rest.done && whole.queue == rest.queue
       && a0 + whole.given == a + rest.given && c0 + whole.taken == c + rest.taken
  }

  lemma ProgressStarts(q: seq<Byte>, a: seq<Byte>, c: int, ops: seq<Op>, maxSize: nat)
    ensures Progress(q, a, c, ops, maxSize, 0, q, a, c)
  {
    hide Served;
    assert ops[0..] == ops;
  }

  lemma ProgressStep(q0: seq<Byte>, a0: seq<Byte>, c0: int, ops: seq<Op>, maxSize: nat, done: nat,
                     q: seq<Byte>, a: seq<Byte>, c: int)
    requires Progress(q0, a0, c0, ops, maxSize, done, q, a, c) && done < |ops| && Fits(q, ops[done], maxSize)
    ensures Progress(q0, a0, c0, ops, maxSize, done + 1, After(q, ops[done]), a + Given(ops[done]),
                     c + Dropped(q, ops[done]))
  {
    hide Fits, After, Given, Dropped;
    var later := Served(After(q, ops[done]), ops[done + 1..], maxSize);
    assert ops[done..][1..] == ops[done + 1..] && ops[done..][0] == ops[done];
    assert a + (Given(ops[done]) + later.given) == (a + Given(ops[done])) + later.given;
  }

  lemma ProgressEnds(q0: seq<Byte>, a0: seq<Byte>, c0: int, ops: seq<Op>, maxSize: nat, done: nat,
                     q: seq<Byte>, a: seq<Byte>, c: int)
    requires Progress(q0, a0, c0, ops, maxSize, done, q, a, c)
    requires done == |ops| || !Fits(q, ops[done], maxSize)
    ensures var r := Served(q0, ops, maxSize);
      r.queue == q && r.done == done && a == a0 + r.given && c == c0 + r.taken
  {
    hide Fits, After, Given, Dropped;
    if done == |ops| { assert ops[done..] == []; } else { assert ops[done..][0] == ops[done]; }
    assert a + [] == a;
  }

  /** A client that makes its calls one by one, until one fails. A failed write leaves the input
      only if it repeats itself with the period of the get offset. */
  method Serve(b: StreamBuffer, ops: seq<Op>) returns (done: nat)
    requires b.Valid() && forall i :: 0 <= i < |ops| ==> Small(ops[i])
    modifies b, b.buffer
    ensures b.Valid() && (b.buffer == old(b.buffer) || fresh(b.buffer))
    ensures var r := Served(old(b.Input()), ops, b.maxSize);
      done == r.done && b.arrived == old(b.arrived) + r.given && b.consumed == old(b.consumed) + r.taken
      && (b.Input() == r.queue <==> done == |ops| || ops[done].Put? || Periodic(r.queue, b.gnext))
      && (old(b.Fifo()) && b.Input() == r.queue ==> b.Fifo())
  {
    hide IsQueue, Periodic, Progress, Served, After, Given, Dropped, Fits, Small, StreamBuffer.Fifo;
    ghost var q0, a0, c0, fifo := b.Input(), b.arrived, b.consumed, b.Fifo();
    done := 0;
    ProgressStarts(q0, a0, c0, ops, b.maxSize);
    while done < |ops|
      invariant b.Valid() && done <= |ops| && (b.buffer == old(b.buffer) || fresh(b.buffer))
      invariant Progress(q0, a0, c0, ops, b.maxSize, done, b.Input(), b.arrived, b.consumed) && (fifo ==> b.Fifo())
    {
      ghost var q, a, c := b.Input(), b.arrived, b.consumed;
      if fifo { FifoIs(b); }
      var ok := ServeOne(b, ops[done]);
      if !ok {
        ProgressEnds(q0, a0, c0, ops, b.maxSize, done, q, a, c);
        TakesFit(q, ops[done], b.maxSize);
        if fifo && b.Input() == q { FifoFrom(b); }
        return;
      }
      ProgressStep(q0, a0, c0, ops, b.maxSize, done, q, a, c);
      done := done + 1;
    }
    ProgressEnds(q0, a0, c0, ops, b.maxSize, done, b.Input(), b.arrived, b.consumed);
  }

  lemma TakesFit(q: seq<Byte>, op: Op, maxSize: nat)
    ensures op.Take? ==> Fits(q, op, maxSize)
  {
  }

  lemma FifoIs(b: StreamBuffer)
    requires b.Valid() && b.Fifo()
    ensures IsQueue(b.Input(), b.arrived, b.consumed)
  {
    hide IsQueue;
  }

  lemma FifoFrom(b: StreamBuffer)
    requires b.Valid() && IsQueue(b.Input(), b.arrived, b.consumed)
    ensures b.Fifo()
  {
    hide IsQueue;
  }

  // ---------------------------------------------------------------- a failure that loses bytes

  lemma ShiftedThree(b: seq<Byte>)
    requires b == [1, 2, 3]
    ensures b[1..3] == [2, 3] && Shifted(b, 1, 3) == [2, 3, 3] && Shifted(b, 1, 3)[1..3] == [3, 3]
  {
  }

  /** A buffer for three bytes that holds 1, 2, 3. */
  method FullBuffer() returns (b: StreamBuffer)
    ensures fresh(b) && fresh(b.buffer) && b.Valid() && b.maxSize == 3
    ensures b.gnext == 0 && b.pnext == 3 && b.buffer[..] == [1, 2, 3] && b.arrived == [1, 2, 3] && b.consumed == 0
  {
    hide Shifted, Periodic, IsQueue;
    b := new StreamBuffer(3);
    var sent := b.Send([1, 2, 3]);
    assert b.gnext == 0 && b.pnext == 3;
    assert b.buffer[..] == b.Input();
  }

  /** The first byte is consumed, and room for two more is refused. Before the refusal the input is
      2, 3; after it, 3, 3. */
  method FailureCanCorrupt() returns (b: StreamBuffer, ghost before: seq<Byte>, ok: bool)
    ensures fresh(b) && b.Valid() && !ok
    ensures before == [2, 3] && b.Input() == [3, 3] && b.arrived == [1, 2, 3] && b.consumed == 1
  {
    hide Shifted, Periodic, IsQueue, AsInt;
    b := FullBuffer();
    AsIntExact(1);
    ShiftedThree(b.buffer[..]);
    ghost var all := b.buffer[..];
    b.Consume(1);
    before := b.Input();
    assert b.gnext == 1 && b.pnext == 3 && before == all[1..3];
    var start;
    ok, start := b.Prepare(2);
    assert b.buffer[..] == Shifted(all, 1, 3);
    assert b.Input() == b.buffer[..][1..3];
  }
}
