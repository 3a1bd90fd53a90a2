/** Frames over a byte stream: `sock_sync_data` sends one frame whole and collects one of
    the same size, in whatever pieces the stream delivers it. */
module TcpStreams {
  import opened Arithmetic
  import opened ByteLayout

  /** The stream that a sequence of frames becomes. */
  function Flatten(frames: seq<seq<byte>>): seq<byte> {
    if frames == [] then [] else frames[0] + Flatten(frames[1..])
  }

  lemma {:induction false} FlattenAppend(a: seq<seq<byte>>, b: seq<seq<byte>>)
    ensures Flatten(a + b) == Flatten(a) + Flatten(b)
  {
    if a == [] {
      assert a + b == b;
    } else {
      assert (a + b)[1..] == a[1..] + b;
      FlattenAppend(a[1..], b);
    }
  }

  lemma {:induction false} FlattenSnoc(frames: seq<seq<byte>>, f: seq<byte>)
    ensures Flatten(frames + [f]) == Flatten(frames) + f
  {
    FlattenAppend(frames, [f]);
    assert Flatten([f]) == f + Flatten([]) == f;
  }

  /** Both sides use the same size for their k-th frame, as far as both have one. */
  predicate Matching(a: seq<seq<byte>>, b: seq<seq<byte>>) {
    forall k | 0 <= k < |a| && k < |b| :: |a[k]| == |b[k]|
  }

  predicate NoneEmpty(frames: seq<seq<byte>>) {
    forall k | 0 <= k < |frames| :: frames[k] != []
  }

  lemma Peel(f: seq<byte>, x: seq<byte>, g: seq<byte>, y: seq<byte>)
    requires f + x == g + y && |f| == |g|
    ensures f == g && x == y
  {
    assert f == (f + x)[..|f|] && g == (g + y)[..|g|];
    assert x == (f + x)[|f|..] && y == (g + y)[|g|..];
  }

  /** If what one side has collected whole (`got`), the piece under way and what is still to
      come are together what the other has sent, then the k-th frame collected is the k-th
      frame sent, and nothing of a later frame has been taken. */
  lemma {:induction false} Framed(got: seq<seq<byte>>, rest: seq<byte>, sent: seq<seq<byte>>)
    requires Flatten(got) + rest == Flatten(sent)
    requires Matching(got, sent) && NoneEmpty(got)
    ensures |got| <= |sent| && got == sent[..|got|]
    ensures rest == Flatten(sent[|got|..])
  {
    if got == [] {
      assert Flatten(got) + rest == rest;
      assert sent[0..] == sent;
    } else {
      FramedHead(got, rest, sent);
      Framed(got[1..], rest, sent[1..]);
      FramedTail(got, sent);
    }
  }

  lemma {:induction false} FramedHead(got: seq<seq<byte>>, rest: seq<byte>, sent: seq<seq<byte>>)
    requires got != [] && Flatten(got) + rest == Flatten(sent)
    requires Matching(got, sent) && NoneEmpty(got)
    ensures sent != [] && got[0] == sent[0] && Flatten(got[1..]) + rest == Flatten(sent[1..])
    ensures Matching(got[1..], sent[1..]) && NoneEmpty(got[1..])
  {
    assert |Flatten(got) + rest| >= |got[0]| > 0;
    assert Flatten(got) + rest == got[0] + (Flatten(got[1..]) + rest);
    Peel(got[0], Flatten(got[1..]) + rest, sent[0], Flatten(sent[1..]));
    MatchingTail(got, sent);
  }

  lemma MatchingTail(a: seq<seq<byte>>, b: seq<seq<byte>>)
    requires a != [] && b != [] && Matching(a, b) && NoneEmpty(a)
    ensures Matching(a[1..], b[1..]) && NoneEmpty(a[1..])
  {
    forall k | 0 <= k < |a| - 1 && k < |b| - 1 ensures |a[1..][k]| == |b[1..][k]| {
      assert |a[k + 1]| == |b[k + 1]|;
    }
  }

  lemma FramedTail(got: seq<seq<byte>>, sent: seq<seq<byte>>)
    requires got != [] && sent != [] && got[0] == sent[0]
    requires |got| <= |sent| && got[1..] == sent[1..][..|got| - 1]
    ensures got == sent[..|got|] && sent[1..][|got| - 1..] == sent[|got|..]
  {
    assert got == [got[0]] + got[1..];
  }

  /** The bytes at the place where one side's k-th frame ends up are the other's k-th frame. */
  lemma {:induction false} KthFrame(mine: seq<seq<byte>>, theirs: seq<seq<byte>>, k: nat)
    requires Matching(mine, theirs) && k <= |mine| && k < |theirs|
    ensures var at := |Flatten(mine[..k])|;
      at + |theirs[k]| <= |Flatten(theirs)| && Flatten(theirs)[at..at + |theirs[k]|] == theirs[k]
  {
    SameLength(mine[..k], theirs[..k]);
    assert theirs == theirs[..k] + theirs[k..];
    FlattenAppend(theirs[..k], theirs[k..]);
    assert Flatten(theirs[k..]) == theirs[k] + Flatten(theirs[k..][1..]);
  }

  lemma {:induction false} SameLength(a: seq<seq<byte>>, b: seq<seq<byte>>)
    requires |a| == |b| && Matching(a, b)
    ensures |Flatten(a)| == |Flatten(b)|
  {
    if a != [] {
      assert |a[0]| == |b[0]|;
      forall k | 0 <= k < |a| - 1 ensures |a[1..][k]| == |b[1..][k]| {
        assert |a[k + 1]| == |b[k + 1]|;
      }
      SameLength(a[1..], b[1..]);
    }
  }

  // ----- the connector -----

  function Sum(s: seq<nat>): nat {
    if s == [] then 0 else s[0] + Sum(s[1..])
  }

  lemma {:induction false} SumPrefix(s: seq<nat>, i: nat)
    requires i < |s|
    ensures Sum(s[..i + 1]) == Sum(s[..i]) + s[i]
  {
    if i == 0 {
      assert s[..1] == [s[0]] && s[1..1] == [];
    } else {
      SumPrefix(s[1..], i - 1);
      assert s[..i + 1][1..] == s[1..][..i] && s[..i][1..] == s[1..][..i - 1];
    }
  }

  lemma {:induction false} SumGrows(s: seq<nat>, i: nat)
    requires i <= |s|
    ensures Sum(s[..i]) <= Sum(s)
  {
    if i > 0 {
      SumGrows(s[1..], i - 1);
      assert s[..i][1..] == s[1..][..i - 1];
    }
  }

  /** How much is there after a number of `recv` calls that found `found` bytes in all. */
  function Collected(size: nat, found: nat, available: nat): nat {
    Least(size, Least(found, available))
  }

  lemma CollectMore(size: nat, found: nat, available: nat, total: nat, ready: nat, n: nat)
    requires total == Collected(size, found, available) < size
    requires n == Least(Least(ready, size - total), available - total)
    ensures total + n == Collected(size, found + ready, available)
  {
  }

  /** Memory `a` after `bytes` have landed at `at`. */
  function Landed(a: seq<byte>, at: nat, bytes: seq<byte>): (r: seq<byte>)
    requires at + |bytes| <= |a|
    ensures |r| == |a|
  {
    a[..at] + bytes + a[at + |bytes|..]
  }

  /** `bytes` are at `at`, and everything else is as it was. */
  ghost predicate LandsAt(before: seq<byte>, after: seq<byte>, at: nat, bytes: seq<byte>) {
    && at + |bytes| <= |before| == |after|
    && (forall i | 0 <= i < |bytes| :: after[at + i] == bytes[i])
    && (forall i | 0 <= i < at || at + |bytes| <= i < |before| :: after[i] == before[i])
  }

  lemma LandedThere(a: seq<byte>, at: nat, bytes: seq<byte>)
    requires at + |bytes| <= |a|
    ensures LandsAt(a, Landed(a, at, bytes), at, bytes)
  {
  }

  /** Landing a piece right after another is landing both. */
  lemma LandedTwice(a: seq<byte>, b: seq<byte>, c: seq<byte>, stream: seq<byte>,
                    i: nat, at: nat, j: nat, k: nat)
    requires i <= j <= k <= |stream| && k - i <= |a| && at == j - i
    requires b == Landed(a, 0, stream[i..j]) && c == Landed(b, at, stream[j..k])
    ensures c == Landed(a, 0, stream[i..k])
  {
    assert stream[i..k] == stream[i..j] + stream[j..k];
  }

  class TCPConnector {
    const incoming: seq<byte>             // every byte the peer ever sends, in order
    var taken: nat                        // how many of them have been received
    var outgoing: seq<byte>
    ghost var frames: seq<seq<byte>>      // the frames of the calls made so far

    ghost predicate Valid()
      reads this
    {
      outgoing == Flatten(frames) && taken == |outgoing| <= |incoming|
    }

    constructor (incoming: seq<byte>)
      ensures Valid() && frames == [] && this.incoming == incoming
    {
      this.incoming := incoming;
      taken, outgoing, frames := 0, [], [];
    }

    method SendData(data: seq<byte>) returns (written: nat)
      modifies this`outgoing
      ensures written == |data| && outgoing == old(outgoing) + data
    {
      outgoing := outgoing + data;
      written := |data|;
    }

    /** One `recv`: `ready` bytes have arrived by then; at most `room` are taken. */
    method Recv(ready: nat, into: array<byte>, at: nat, room: nat) returns (n: nat)
      requires taken <= |incoming| && at + room <= into.Length
      modifies this`taken, into
      ensures n == Least(Least(ready, room), |incoming| - old(taken))
      ensures taken == old(taken) + n <= |incoming|
      ensures into[..] == Landed(old(into[..]), at, incoming[old(taken)..taken])
      ensures LandsAt(old(into[..]), into[..], at, incoming[old(taken)..taken])
    {
      n := Least(Least(ready, room), |incoming| - taken);
      forall i | 0 <= i < n {
        into[at + i] := incoming[taken + i];
      }
      taken := taken + n;
      LandedThere(old(into[..]), at, incoming[old(taken)..taken]);
    }

    /** The loop, observed for a finite number of `recv` calls: `ready` says what each of them finds,
        possibly nothing. The call returns with the last of `size` bytes, takes no byte more, and
        is still in the loop (`done` is false) if `ready` has not brought that many. */
    method RecvDataForce(size: nat, into: array<byte>, ready: seq<nat>) returns (done: bool, total: nat)
      requires taken <= |incoming| && size <= into.Length
      modifies this`taken, into
      ensures done <==> size <= Sum(ready) && size <= |incoming| - old(taken)
      ensures done ==> total == size
      ensures total == Collected(size, Sum(ready), |incoming| - old(taken))
      ensures taken == old(taken) + total <= |incoming|
      ensures into[..] == Landed(old(into[..]), 0, incoming[old(taken)..taken])
      ensures LandsAt(old(into[..]), into[..], 0, incoming[old(taken)..taken])
    {
      ghost var start, from, found := into[..], taken, 0;
      total := 0;
      var calls := 0;
      assert ready[..0] == [];
      while total < size && calls < |ready|
        invariant 0 <= calls <= |ready| && taken == from + total <= |incoming| && found == Sum(ready[..calls])
        invariant total == Collected(size, found, |incoming| - from)
        invariant into[..] == Landed(start, 0, incoming[from..taken])
      {
        ghost var now, middle := into[..], taken;
        var n := Recv(ready[calls], into, total, size - total);
        CollectMore(size, found, |incoming| - from, total, ready[calls], n);
        LandedTwice(start, now, into[..], incoming, from, total, middle, taken);
        SumPrefix(ready, calls);
        found := found + ready[calls];
        total := total + n;
        calls := calls + 1;
      }
      done := total == size;
      LandedThere(start, 0, incoming[from..taken]);
      SumGrows(ready, calls);
      assert ready[..|ready|] == ready;
    }

    /** Exchange one frame. Whatever the pieces, a stream that brings enough makes the k-th
        call deliver the peer's k-th frame and return 0. */
    method SockSyncData(local: seq<byte>, remote: array<byte>, ready: seq<nat>, ghost theirs: seq<seq<byte>>)
      returns (difference: int)
      requires Valid() && |local| <= remote.Length
      requires incoming == Flatten(theirs) && |frames| < |theirs|
      requires Matching(frames + [local], theirs) && Sum(ready) >= |local|
      modifies this, remote
      ensures |local| == |theirs[|old(frames)|]|
      ensures Valid() && frames == old(frames) + [local]
      ensures difference == 0
      ensures remote[..] == Landed(old(remote[..]), 0, theirs[|old(frames)|])
      ensures LandsAt(old(remote[..]), remote[..], 0, theirs[|old(frames)|])
    {
      ghost var k := |frames|;
      assert (frames + [local])[..k] == frames && |local| == |(frames + [local])[k]| == |theirs[k]|;
      KthFrame(frames + [local], theirs, k);
      FlattenSnoc(frames, local);
      var written := SendData(local);
      var _, received := RecvDataForce(|local|, remote, ready);
      frames := frames + [local];
      difference := received - written;
    }
  }
}
