/** Registered memory: splitting into blocks, filling, and the ring of blocks that
    `next` hands out and `last` takes back. */
module Buffers {
  import opened Arithmetic
  import opened ByteLayout

  // ----- the ring, as a value -----

  /** `next` and `last` are the two counters of the base buffer (both -1 at first),
      `inUse` the flag of each block. */
  datatype Ring = Ring(next: int, last: int, inUse: seq<bool>) {
    /** Blocks handed out and not taken back. */
    function Outstanding(): int {
      next - last
    }
  }

  function NewRing(blocks: nat): Ring {
    Ring(-1, -1, seq(blocks, _ => false))
  }

  /** The counters bound a window of at most one turn, and the flags say exactly which
      blocks are inside it. */
  predicate Windowed(r: Ring) {
    var n := |r.inUse|;
    && n > 0 && -1 <= r.last <= r.next <= r.last + n
    && (forall k | r.last < k <= r.next :: r.inUse[k % n])
    && (forall k | r.next < k <= r.last + n :: !r.inUse[k % n])
  }

  /** The block that `next()` hands out, and the one that `last()` takes back. */
  function NextBlock(r: Ring): (b: nat)
    requires |r.inUse| > 0 && r.next >= -1
    ensures b < |r.inUse|
  {
    (r.next + 1) % |r.inUse|
  }

  function LastBlock(r: Ring): (b: nat)
    requires |r.inUse| > 0 && r.last >= -1
    ensures b < |r.inUse|
  {
    (r.last + 1) % |r.inUse|
  }

  function Advance(r: Ring): Ring
    requires |r.inUse| > 0 && r.next >= -1
  {
    r.(next := r.next + 1, inUse := r.inUse[NextBlock(r) := true])
  }

  function Retire(r: Ring): Ring
    requires |r.inUse| > 0 && r.last >= -1
  {
    r.(last := r.last + 1, inUse := r.inUse[LastBlock(r) := false])
  }

  lemma NewRingWindowed(blocks: nat)
    requires blocks > 0
    ensures Windowed(NewRing(blocks))
  {
  }

  /** Within one turn no block comes up twice. */
  lemma OneTurn(j: int, k: int, n: nat)
    requires 0 <= j < k < j + n
    ensures j % n != k % n
  {
    var r := j % n + (k - j);
    if r < n {
      ModUnique(k, n, j / n, r);
    } else {
      ModUnique(k, n, j / n + 1, r - n);
    }
  }

  /** The disabled check in `next()` holds exactly when the window is not full, and then
      the window grows by the block handed out. */
  lemma AdvanceWindow(r: Ring)
    requires Windowed(r)
    ensures !r.inUse[NextBlock(r)] <==> r.Outstanding() < |r.inUse|
    ensures r.Outstanding() < |r.inUse| ==> Windowed(Advance(r))
  {
    var n := |r.inUse|;
    if r.Outstanding() < n {
      var r' := Advance(r);
      forall k | r'.next < k <= r'.last + n ensures !r'.inUse[k % n] {
        OneTurn(r'.next, k, n);
      }
    } else {
      NextTurn(r.last + 1, n);
      assert r.inUse[(r.last + 1) % n];
    }
  }

  /** The disabled check in `last()` holds exactly when something is outstanding, and then
      the window shrinks by its oldest block. */
  lemma RetireWindow(r: Ring)
    requires Windowed(r)
    ensures r.inUse[LastBlock(r)] <==> r.Outstanding() > 0
    ensures r.Outstanding() > 0 ==> Windowed(Retire(r))
  {
    var n := |r.inUse|;
    if r.Outstanding() > 0 {
      var r' := Retire(r);
      forall k | r'.last < k <= r'.next ensures r'.inUse[k % n] {
        OneTurn(r'.last, k, n);
      }
      forall k | r'.next < k <= r'.last + n ensures !r'.inUse[k % n] {
        if k == r'.last + n {
          NextTurn(r'.last, n);
        } else {
          assert !r.inUse[k % n];
        }
      }
    }
  }

  /** On a full ring, taking the oldest block back and asking for the next one gives the
      same block again, and leaves the flags as they were. */
  lemma RetireAdvance(r: Ring)
    requires Windowed(r) && r.Outstanding() == |r.inUse|
    ensures NextBlock(Retire(r)) == LastBlock(r)
    ensures Advance(Retire(r)) == r.(next := r.next + 1, last := r.last + 1)
  {
    NextTurn(r.last + 1, |r.inUse|);
    RetireWindow(r);
  }

  // ----- blocks -----

  /** A sub-buffer: bytes `offset .. offset + size` of the base buffer. */
  datatype Block = Block(offset: nat, size: nat)

  /** `blocks` cut `total` bytes into consecutive pieces of `size` bytes. */
  predicate Tiled(blocks: seq<Block>, size: nat) {
    forall i | 0 <= i < |blocks| :: blocks[i] == Block(i * size, size)
  }

  /** Every byte of the buffer lies in exactly one block. */
  lemma EachByteOnce(blocks: seq<Block>, size: nat, position: nat)
    requires Tiled(blocks, size) && size > 0 && position < |blocks| * size
    ensures position / size < |blocks|
    ensures forall i | 0 <= i < |blocks| ::
      blocks[i].offset <= position < blocks[i].offset + blocks[i].size <==> i == position / size
  {
    var b := position / size;
    Within(position, size, b);
    if b >= |blocks| {
      Scaled(|blocks|, b, size);
    }
    forall i | 0 <= i < |blocks|
      ensures blocks[i].offset <= position < blocks[i].offset + blocks[i].size <==> i == b
    {
      if i < b {
        Scaled(i + 1, b, size);
      } else if i > b {
        Scaled(b + 1, i, size);
      }
    }
  }

  lemma Within(position: nat, size: nat, b: nat)
    requires size > 0 && b == position / size
    ensures b * size <= position < (b + 1) * size && (b + 1) * size == b * size + size
  {
  }

  lemma Scaled(a: nat, b: nat, size: nat)
    requires a <= b
    ensures a * size <= b * size && (a + 1) * size == a * size + size
  {
    if a < b {
      Scaled(a, b - 1, size);
    }
  }

  // ----- the buffer -----

  class RDMABuffer {
    const data: array<byte>
    ghost const initial: seq<byte>    // what the allocator had left in it
    const blockSize: nat
    var blocks: seq<Block>
    var nextActive: int
    var lastActive: int
    var inUsed: seq<bool>

    ghost predicate Valid()
      reads this
    {
      && Tiled(blocks, blockSize) && |blocks| == |inUsed| > 0
      && data.Length == |blocks| * blockSize > 0
      && nextActive >= -1 && lastActive >= -1
    }

    ghost function AsRing(): Ring
      reads this
    {
      Ring(nextActive, lastActive, inUsed)
    }

    /** Allocate and split. Only the first block is cleared: the rest of the memory keeps
        whatever the allocator left there (`AllClearIff`). */
    constructor (size: nat, numBlocks: nat)
      requires size > 0 && numBlocks > 0
      ensures Valid() && fresh(data)
      ensures blockSize == size && |blocks| == numBlocks && AsRing() == NewRing(numBlocks)
      ensures |initial| == data.Length >= size && data[..] == Zeros(size) + initial[size..]
    {
      Product(size, numBlocks);
      var memory := new byte[size * numBlocks];
      data := memory;
      initial := memory[..];
      blockSize := size;
      blocks := [];
      nextActive, lastActive := -1, -1;
      inUsed := seq(numBlocks, _ => false);
      new;
      var index := 0;
      while index < numBlocks
        invariant 0 <= index <= numBlocks && |blocks| == index && Tiled(blocks, size)
        invariant nextActive == lastActive == -1 && inUsed == seq(numBlocks, _ => false)
        invariant data[..] == initial
      {
        blocks := blocks + [Block(|blocks| * size, size)];
        index := index + 1;
      }
      forall i | 0 <= i < size {
        data[i] := 0;
      }
      assert data[..] == Zeros(size) + initial[size..];
    }

    method Clear()
      modifies data
      ensures data[..] == Zeros(data.Length) && forall i | 0 <= i < data.Length :: data[i] == 0
    {
      forall i | 0 <= i < data.Length {
        data[i] := 0;
      }
    }

    /** `ok` is the outcome of the length check. */
    method FillIn(text: seq<byte>) returns (ok: bool)
      modifies data
      ensures ok <==> |text| <= data.Length
      ensures ok ==> data[..|text|] == text && forall i | |text| <= i < data.Length :: data[i] == 0
      ensures data[..] == if ok then Padded(text, data.Length) else old(data[..])
    {
      ok := |text| <= data.Length;
      if ok {
        Clear();
        forall i | 0 <= i < |text| {
          data[i] := text[i];
        }
        assert data[..] == Padded(text, data.Length);
        PaddedBytes(text, data.Length);
      }
    }

    /** The block a ring position names. */
    method Next() returns (block: nat)
      requires Valid()
      modifies this`nextActive, this`inUsed
      ensures Valid() && block == NextBlock(old(AsRing())) && AsRing() == Advance(old(AsRing()))
      ensures block == (old(nextActive) + 1) % |blocks| && nextActive == old(nextActive) + 1 && inUsed[block]
    {
      nextActive := nextActive + 1;
      block := nextActive % |blocks|;
      inUsed := inUsed[block := true];
    }

    method Last() returns (block: nat)
      requires Valid()
      modifies this`lastActive, this`inUsed
      ensures Valid() && block == LastBlock(old(AsRing())) && AsRing() == Retire(old(AsRing()))
      ensures block == (old(lastActive) + 1) % |blocks| && lastActive == old(lastActive) + 1 && !inUsed[block]
    {
      lastActive := lastActive + 1;
      block := lastActive % |blocks|;
      inUsed := inUsed[block := false];
    }
  }

  /** The constructor leaves the whole memory clear, as its comment has it, exactly if every byte
      past the first block was zero before. */
  lemma AllClearIff(size: nat, initial: seq<byte>)
    requires size <= |initial|
    ensures Zeros(size) + initial[size..] == Zeros(|initial|)
      <==> forall i | size <= i < |initial| :: initial[i] == 0
  {
    var cleared := Zeros(size) + initial[size..];
    assert forall i | size <= i < |initial| :: cleared[i] == initial[i];
  }

  lemma Product(a: nat, b: nat)
    requires a > 0 && b > 0
    ensures a * b >= a && a * b == b * a
  {
    assert a * b == a + a * (b - 1);
  }
}
