/** The polling loops of the two towers as they run, over buffers whose counters advance in
    place. Each handler is proved to do what `MeshService` says wherever the checks that
    `next()` and `last()` have commented out would hold. */
module MeshTower {
  import opened ByteLayout
  import opened Wrappers
  import opened Buffers
  import opened MeshService
  import opened MeshSharedQueue
  import opened MeshBatch

  lemma {:induction false} BurstPrefix(ch: Channel, k: nat, m: nat)
    requires ch.WellFormed() && k <= m && PostWrites(ch, m).Ok?
    ensures PostWrites(ch, k).Ok?
    decreases m
  {
    if k < m {
      BurstPrefix(ch, k, m - 1);
    }
  }

  lemma BurstNext(ch: Channel, k: nat, m: nat)
    requires ch.WellFormed() && k < m
    ensures PostWrites(ch, m).Ok? ==>
      PostWrites(ch, k).Ok? && PostWrites(ch, k + 1) == PostWrite(PostWrites(ch, k).value) && PostWrites(ch, k + 1).Ok?
  {
    if PostWrites(ch, m).Ok? {
      BurstPrefix(ch, k + 1, m);
      BurstPrefix(ch, k, m);
    }
  }

  class TowerChannel {
    const sendBuffer: RDMABuffer
    const recvBuffer: RDMABuffer
    const own: Descriptor
    var sq: seq<Work>
    var acks: seq<Work>
    var receives: seq<nat>
    var cq: seq<Event>
    var sqInflight: int
    var rqInflight: int
    var sendMem: seq<Option<Descriptor>>
    var recvMem: seq<Option<Descriptor>>
    var peer: Option<Descriptor>
    ghost var arrived: nat

    ghost function Objects(): set<object> {
      {this, sendBuffer, recvBuffer}
    }

    ghost predicate Valid()
      reads Objects()
    {
      && sendBuffer != recvBuffer && sendBuffer.Valid() && recvBuffer.Valid() && State().WellFormed()
    }

    ghost function State(): Channel
      reads Objects()
    {
      Channel(sendBuffer.AsRing(), recvBuffer.AsRing(), sq, acks, receives, cq,
              sqInflight, rqInflight, sendMem, recvMem, own, peer, arrived)
    }

    /** Allocate and register the two buffers of a channel. */
    constructor (blocks: nat, address: nat, rkey: nat)
      requires blocks > 0
      ensures Valid() && fresh(Objects()) && Registered(State(), blocks)
      ensures State().own == Descriptor(address, blocks * 16384, rkey)
      ensures sendBuffer.blockSize == recvBuffer.blockSize == 16384
      ensures sendBuffer.data.Length == recvBuffer.data.Length == blocks * 16384
    {
      sendBuffer := new RDMABuffer(BLOCK_SIZE, blocks);
      recvBuffer := new RDMABuffer(BLOCK_SIZE, blocks);
      own := Descriptor(address, blocks * BLOCK_SIZE, rkey);
      sq, acks, receives, cq := [], [], [], [];
      sqInflight, rqInflight, peer, arrived := 0, 0, None, 0;
      sendMem, recvMem := seq(blocks, _ => None), seq(blocks, _ => None);
    }

    // ----- posting -----

    method Post(w: Work)
      modifies this`sq, this`sqInflight
      ensures State() == old(State()).(sq := old(sq) + [w], sqInflight := old(sqInflight) + 1)
    {
      sqInflight := sqInflight + 1;
      sq := sq + [w];
    }

    method WriteNext() returns (ok: bool)
      requires Valid()
      modifies Objects()
      ensures Valid() && (PostWrite(old(State())).Ok? ==> ok && State() == PostWrite(old(State())).value)
      ensures ok <==> old(peer).Some? && 16384 <= old(peer).value.length
    {
      var block := sendBuffer.Next();
      ok := peer.Some? && BLOCK_SIZE <= peer.value.length;
      if ok {
        Post(WriteWork(peer.value, block));
      }
    }

    method ReceiveNext()
      requires Valid()
      modifies Objects()
      ensures Valid() && (PostReceive(old(State())).Ok? ==> State() == PostReceive(old(State())).value)
    {
      var block := recvBuffer.Next();
      rqInflight := rqInflight + 1;
      receives := receives + [block];
    }

    /** Post a receive for every block, before the barrier. */
    method PostAllReceives()
      requires Valid()
      modifies Objects()
      ensures Valid()
      ensures var n := old(State()).Blocks();
        PostReceives(old(State()), n).Ok? ==> State() == PostReceives(old(State()), n).value
    {
      ghost var start := State();
      var n := |recvBuffer.blocks|;
      var bin := 0;
      while bin < n
        invariant 0 <= bin <= n && Valid()
        invariant PostReceives(start, bin).Ok? ==> State() == PostReceives(start, bin).value
      {
        ReceiveNext();
        bin := bin + 1;
      }
    }

    method AckSend()
      requires Valid()
      modifies Objects()
      ensures Valid() && (CountOff(old(State())).Ok? ==> State() == CountOff(old(State())).value)
    {
      sqInflight := sqInflight - 1;
      var _ := sendBuffer.Last();
    }

    // ----- the client's handlers -----

    /** `bin` WRITEs of a burst have been posted as the model says, if it can post them all. */
    ghost predicate Bursting(start: Channel, bin: nat, count: nat, ok: bool)
      reads Objects()
    {
      && Valid() && start.WellFormed() && bin <= count
      && (PostWrites(start, count).Ok? ==> ok && PostWrites(start, bin) == Ok(State()))
    }

    method WriteOne(ghost start: Channel, ghost bin: nat, ghost count: nat, before: bool) returns (ok: bool)
      requires Bursting(start, bin, count, before) && bin < count
      modifies Objects()
      ensures Bursting(start, bin + 1, count, ok)
    {
      BurstNext(start, bin, count);
      ok := WriteNext();
      ok := before && ok;
    }

    /** Write `count` blocks to the peer. */
    method WriteBurst(count: nat) returns (ok: bool)
      requires Valid()
      modifies Objects()
      ensures Valid()
      ensures PostWrites(old(State()), count).Ok? ==> ok && State() == PostWrites(old(State()), count).value
    {
      ghost var start := State();
      var bin := 0;
      ok := true;
      while bin < count
        invariant 0 <= bin <= count && Bursting(start, bin, count, ok)
      {
        ok := WriteOne(start, bin, count, ok);
        bin := bin + 1;
      }
    }

    method ClientRecv(tag: Message) returns (ok: bool)
      requires Valid()
      modifies Objects()
      ensures Valid()
      ensures ClientOnRecv(old(State()), tag).Ok? ==> ok && State() == ClientOnRecv(old(State()), tag).value
      ensures ok ==> tag == ResponseToRequestBuffer
    {
      rqInflight := rqInflight - 1;
      var _ := recvBuffer.Last();
      if tag != ResponseToRequestBuffer {
        return false;
      }
      var block := recvBuffer.Next();
      peer := recvMem[block];
      ok := WriteBurst(|sendBuffer.blocks| - 1);
    }

    method ClientEvent(e: Event) returns (ok: bool)
      requires Valid()
      modifies Objects()
      ensures Valid()
      ensures ClientDispatch(old(State()), e).Ok? ==> ok && State() == ClientDispatch(old(State()), e).value
      ensures ok && e.RecvDone? ==> e.tag == ResponseToRequestBuffer
    {
      match e
      case SendDone(_) =>
        AckSend();
        ok := true;
      case WriteDone(_) =>
        AckSend();
        ok := WriteNext();
      case RecvDone(tag, _) =>
        ok := ClientRecv(tag);
    }

    // ----- the server's handlers -----

    method ServerRecv(tag: Message) returns (ok: bool)
      requires Valid()
      modifies Objects()
      ensures Valid()
      ensures ServerOnRecv(old(State()), tag).Ok? ==> ok && State() == ServerOnRecv(old(State()), tag).value
      ensures ok <==> tag == RequestBuffer
    {
      var _ := recvBuffer.Last();
      rqInflight := rqInflight - 1;
      if tag != RequestBuffer {
        return false;
      }
      var block := sendBuffer.Next();
      sendMem := sendMem[block := Some(own)];
      Post(SendWork(ResponseToRequestBuffer, block));
      ReceiveNext();
      ok := true;
    }

    method ServerEvent(e: Event) returns (ok: bool)
      requires Valid()
      modifies Objects()
      ensures Valid()
      ensures ServerDispatch(old(State()), e).Ok? ==> ok && State() == ServerDispatch(old(State()), e).value
      ensures ok <==> !e.WriteDone? && (e.RecvDone? ==> e.tag == RequestBuffer)
    {
      match e
      case SendDone(_) =>
        AckSend();
        ok := true;
      case WriteDone(_) =>
        ok := false;
      case RecvDone(tag, _) =>
        ok := ServerRecv(tag);
    }
  }

  // ----- a batch from the shared queue -----

  /** The channels of one tower share nothing. */
  ghost predicate Apart(channels: seq<TowerChannel>) {
    forall i, j | 0 <= i < j < |channels| :: channels[i].Objects() !! channels[j].Objects()
  }

  ghost function AllObjects(channels: seq<TowerChannel>): set<object> {
    set i, o | 0 <= i < |channels| && o in channels[i].Objects() :: o
  }

  ghost predicate AllValid(channels: seq<TowerChannel>)
    reads AllObjects(channels)
  {
    forall i | 0 <= i < |channels| :: channels[i].Valid()
  }

  ghost function States(channels: seq<TowerChannel>): seq<Channel>
    reads AllObjects(channels)
  {
    seq(|channels|, i requires 0 <= i < |channels| reads AllObjects(channels) => channels[i].State())
  }

  /** One entry goes to the channel it names; the others are left alone. */
  method ProcessEntry(channels: seq<TowerChannel>, active: nat, e: Event) returns (ok: bool)
    requires Apart(channels) && AllValid(channels) && active < |channels|
    modifies channels[active].Objects()
    ensures AllValid(channels)
    ensures ServerDispatch(old(channels[active].State()), e).Ok? ==>
      ok && States(channels) == old(States(channels))[active := ServerDispatch(old(channels[active].State()), e).value]
  {
    ok := channels[active].ServerEvent(e);
    forall i | 0 <= i < |channels| && i != active
      ensures channels[i].Valid() && channels[i].State() == old(channels[i].State())
    {
      assert channels[i].Objects() !! channels[active].Objects();
    }
  }

  /** Handling `rest` from here gives `results`, unless the model meets a failed check on the way. */
  ghost predicate OnTrack(channels: seq<TowerChannel>, rest: seq<Entry>, results: seq<Result<Channel>>, ok: bool)
    reads AllObjects(channels)
  {
    && AllValid(channels)
    && (AllOk(results) ==> ok && RouteAll(States(channels), rest) == results)
  }

  /** The oldest entry of what is left of a batch. */
  method ProcessNext(channels: seq<TowerChannel>, rest: seq<Entry>, ghost results: seq<Result<Channel>>, before: bool)
    returns (ok: bool)
    requires Apart(channels) && rest != [] && rest[0].0 < |channels| && OnTrack(channels, rest, results, before)
    modifies AllObjects(channels)
    ensures OnTrack(channels, rest[1..], results, ok)
  {
    RouteHead(States(channels), rest);
    ok := ProcessEntry(channels, rest[0].0, rest[0].1);
    ok := before && ok;
  }

  method ProcessRest(channels: seq<TowerChannel>, batch: seq<Entry>, ghost results: seq<Result<Channel>>)
    returns (ok: bool)
    requires Apart(channels) && OnTrack(channels, batch, results, true)
    requires forall k | 0 <= k < |batch| :: batch[k].0 < |channels|
    modifies AllObjects(channels)
    ensures OnTrack(channels, [], results, ok)
  {
    var index := 0;
    ok := true;
    assert batch[0..] == batch;
    while index < |batch|
      invariant 0 <= index <= |batch| && OnTrack(channels, batch[index..], results, ok)
    {
      assert batch[index..][0] == batch[index] && batch[index..][1..] == batch[index + 1..];
      ok := ProcessNext(channels, batch[index..], results, ok);
      index := index + 1;
    }
    assert batch[index..] == [];
  }

  lemma StatesWellFormed(channels: seq<TowerChannel>)
    requires AllValid(channels)
    ensures AllWellFormed(States(channels))
  {
  }

  lemma AtTheEnd(channels: seq<TowerChannel>, results: seq<Result<Channel>>, ok: bool)
    requires OnTrack(channels, [], results, ok)
    ensures AllOk(results) ==> ok && |results| == |channels|
    ensures AllOk(results) ==> forall i | 0 <= i < |channels| :: States(channels)[i] == results[i].value
  {
    RouteNone(States(channels));
  }

  /** One polled batch, entry by entry. Every channel ends up as if it had handled its own
      entries, and those alone. */
  method ProcessBatch(channels: seq<TowerChannel>, batch: seq<Entry>) returns (ok: bool)
    requires Apart(channels) && AllValid(channels)
    requires forall k | 0 <= k < |batch| :: batch[k].0 < |channels|
    modifies AllObjects(channels)
    ensures AllValid(channels)
    ensures var results := RouteAll(old(States(channels)), batch);
      AllOk(results) ==> ok && forall i | 0 <= i < |channels| :: States(channels)[i] == results[i].value
  {
    StatesWellFormed(channels);
    ghost var results := RouteAll(States(channels), batch);
    ok := ProcessRest(channels, batch, results);
    AtTheEnd(channels, results, ok);
  }

  /** A batch polled from the shared queue of a sound tower, as every run leaves it: no check fails,
      and the channels end up as after polling the entries one at a time. */
  method ServePolled(channels: seq<TowerChannel>, batch: seq<Entry>, ghost t: Tower, ghost n: nat, ghost after: Tower)
    returns (ok: bool)
    requires Apart(channels) && AllValid(channels) && States(channels) == t.channels
    requires t.WellFormed() && AllSound(t, n) && batch <= t.shared && PolledInto(t, |batch|, after)
    modifies AllObjects(channels)
    ensures AllValid(channels) && ok && States(channels) == after.channels
  {
    BatchIsPolls(t, n, batch, after);
    ok := ProcessBatch(channels, batch);
  }
}
