/** The one-sided tests of the benchmark client: post, poll and count, against whatever batches
    the completion queue returns. */
module DrainLoop {
  import opened Arithmetic
  import opened Buffers

  const OPERATIONS: nat := 1000
  const BATCH: nat := 128
  const MAX_SEND_WR: nat := 1024

  /** What the completion queue does during a test: before the k-th poll that finds something,
      `empty(k)` polls find nothing; then at least one completion is there, and `more(k)`
      further ones unless fewer are outstanding. */
  datatype Arrivals = Arrivals(empty: nat -> nat, more: nat -> nat)

  class BenchmarkClient {
    const buffer: RDMABuffer
    var outstanding: nat      // requests posted and not polled yet

    /** Between two tests: nothing outstanding, no block in use. */
    ghost predicate Idle()
      reads this, buffer
    {
      buffer.Valid() && Windowed(buffer.AsRing()) && buffer.AsRing().Outstanding() == 0 && outstanding == 0
    }

    /** In a test: the blocks in use are those of the outstanding requests. */
    ghost predicate Busy()
      reads this, buffer
    {
      buffer.Valid() && Windowed(buffer.AsRing()) && buffer.AsRing().Outstanding() == outstanding
    }

    constructor (blockSize: nat)
      requires blockSize > 0
      ensures Idle() && fresh(buffer) && |buffer.blocks| == 1000
    {
      buffer := new RDMABuffer(blockSize, OPERATIONS);
      outstanding := 0;
      new;
      NewRingWindowed(OPERATIONS);
    }

    /** Post a request on the next block, which no outstanding request uses. */
    method Post() returns (block: nat)
      requires Busy() && outstanding < |buffer.blocks|
      modifies this`outstanding, buffer`nextActive, buffer`inUsed
      ensures Busy() && outstanding == old(outstanding) + 1
      ensures block < |old(buffer.inUsed)| && !old(buffer.inUsed)[block] && buffer.inUsed[block]
      ensures |buffer.blocks| == old(|buffer.blocks|) && buffer.nextActive == old(buffer.nextActive) + 1
    {
      AdvanceWindow(buffer.AsRing());
      block := buffer.Next();
      outstanding := outstanding + 1;
    }

    /** The block of the oldest outstanding request comes back. */
    method Confirm()
      requires buffer.Valid() && Windowed(buffer.AsRing()) && buffer.AsRing().Outstanding() > 0
      modifies buffer`lastActive, buffer`inUsed
      ensures buffer.Valid() && Windowed(buffer.AsRing())
      ensures buffer.AsRing().Outstanding() == old(buffer.AsRing()).Outstanding() - 1
      ensures buffer.lastActive == old(buffer.lastActive) + 1
    {
      RetireWindow(buffer.AsRing());
      var _ := buffer.Last();
    }

    /** Poll until something comes. With nothing outstanding it would never return. */
    method PollSome(max: nat, empty: nat, more: nat) returns (n: nat)
      requires outstanding > 0 && max > 0
      modifies this`outstanding
      ensures 1 <= n <= max && n <= old(outstanding) && outstanding == old(outstanding) - n
      ensures n == Least(Least(1 + more, max), old(outstanding))
    {
      n := 0;
      var polls := 0;
      while n == 0
        invariant 0 <= polls <= empty + 1 && (n == 0 <==> polls <= empty)
        invariant n == 0 ==> outstanding == old(outstanding)
        invariant n != 0 ==>
          n == Least(Least(1 + more, max), old(outstanding)) && outstanding == old(outstanding) - n
        decreases empty + 1 - polls
      {
        n := if polls < empty then 0 else Least(Least(1 + more, max), outstanding);
        outstanding := outstanding - n;
        polls := polls + 1;
      }
    }

    /** `write_test` and `read_test`: one request at a time. */
    method OneByOne(arrivals: Arrivals)
      requires Idle() && |buffer.blocks| == OPERATIONS
      modifies this`outstanding, buffer`nextActive, buffer`lastActive, buffer`inUsed
      ensures Idle() && |buffer.blocks| == 1000
      ensures buffer.nextActive == old(buffer.nextActive) + 1000
      ensures buffer.lastActive == old(buffer.lastActive) + 1000
    {
      var index := 0;
      while index < OPERATIONS
        invariant 0 <= index <= OPERATIONS && Idle() && |buffer.blocks| == OPERATIONS
        invariant buffer.nextActive == old(buffer.nextActive) + index
        invariant buffer.lastActive == old(buffer.lastActive) + index
      {
        var _ := Post();
        var num := PollSome(1, arrivals.empty(index), arrivals.more(index));
        Confirm();
        index := index + 1;
      }
    }

    /** `write_bw_test`: 1000 WRITEs at once, never more than the send queue holds, then polls
        of up to 128. The polling loop, bounded though it is by 1000 rounds, counts exactly
        the 1000 completions and never polls with none outstanding. */
    method WriteBandwidth(arrivals: Arrivals) returns (confirm: nat, polls: nat)
      requires Idle() && |buffer.blocks| == OPERATIONS
      modifies this`outstanding, buffer`nextActive, buffer`lastActive, buffer`inUsed
      ensures confirm == 1000 && Idle() && |buffer.blocks| == 1000
      ensures buffer.nextActive == old(buffer.nextActive) + 1000
      ensures buffer.lastActive == old(buffer.lastActive) + 1000
      ensures 8 <= polls <= 1000 && confirm <= polls * 128
      ensures (forall k: nat :: arrivals.more(k) >= 127) ==> polls == 8
    {
      ghost var full := forall k: nat :: arrivals.more(k) >= 127;
      PostAll();
      confirm, polls := 0, 0;
      var index := 0;
      while index < OPERATIONS && confirm < OPERATIONS
        invariant 0 <= index <= OPERATIONS && index == polls <= confirm <= polls * BATCH
        invariant full ==> confirm == Least(polls * BATCH, OPERATIONS) && (polls - 1) * BATCH < OPERATIONS
        invariant Busy() && |buffer.blocks| == OPERATIONS && outstanding == OPERATIONS - confirm
        invariant buffer.nextActive == old(buffer.nextActive) + OPERATIONS
      {
        var num := PollSome(BATCH, arrivals.empty(index), arrivals.more(index));
        ConfirmAll(num);
        confirm := confirm + num;
        polls := polls + 1;
        index := index + 1;
      }
    }

    method PostAll()
      requires Idle() && |buffer.blocks| == OPERATIONS
      modifies this`outstanding, buffer`nextActive, buffer`inUsed
      ensures Busy() && |buffer.blocks| == OPERATIONS && outstanding == OPERATIONS <= MAX_SEND_WR == 1024
      ensures buffer.nextActive == old(buffer.nextActive) + OPERATIONS
    {
      var index := 0;
      while index < OPERATIONS
        invariant 0 <= index <= OPERATIONS && Busy() && |buffer.blocks| == OPERATIONS && outstanding == index
        invariant buffer.nextActive == old(buffer.nextActive) + index
      {
        var _ := Post();
        index := index + 1;
      }
    }

    /** Take back the blocks of one batch. */
    method ConfirmAll(num: nat)
      requires buffer.Valid() && Windowed(buffer.AsRing()) && buffer.AsRing().Outstanding() == outstanding + num
      modifies buffer`lastActive, buffer`inUsed
      ensures Busy() && buffer.lastActive == old(buffer.lastActive) + num
    {
      var index := 0;
      while index < num
        invariant 0 <= index <= num && buffer.Valid() && Windowed(buffer.AsRing())
        invariant buffer.AsRing().Outstanding() == outstanding + (num - index)
        invariant buffer.lastActive == old(buffer.lastActive) + index
      {
        Confirm();
        index := index + 1;
      }
    }
  }
}
