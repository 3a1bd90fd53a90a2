/** `RDMAAdapter` and `RDMAEndPoint` as they run: the adapter's fields change in place, the end
    point drives its connector and its adapter in order. */
module EndPoints {
  import opened ByteLayout
  import opened Wrappers
  import opened TcpStreams
  import opened ConnectionSetup

  class RDMAAdapter {
    const device: AdapterInfo           // what the device reports
    const gidIndex: int
    var self: AdapterInfo
    var remote: Option<AdapterInfo>
    var qp: Option<QpState>
    var dest: Option<AdapterInfo>       // what the queue pair was last programmed with

    ghost predicate Valid()
      reads this
    {
      device.Representable() && (qp.Some? ==> self == device)
    }

    ghost function State(): Adapter
      reads this
    {
      Adapter(device, gidIndex, remote, qp, dest)
    }

    constructor (device: AdapterInfo, gidIndex: int)
      requires device.Representable()
      ensures Valid() && State() == Adapter(device, gidIndex, None, None, None)
    {
      this.device, this.gidIndex := device, gidIndex;
      self, remote, qp, dest := AdapterInfo(Zeros(16), 0, 0, 0, 1, Zeros(128)), None, None, None;
    }

    /** The second call finds the resources allocated and only returns `self_`. */
    method Loading() returns (info: AdapterInfo)
      requires Valid()
      modifies this
      ensures Valid() && State() == Load(old(State())) && info == device
    {
      if qp.Some? {
        return self;
      }
      qp := Some(QpReset);
      self := device;
      info := self;
    }

    /** `ibv_modify_qp` refuses an illegal move; its callers log that and go on. */
    method Modify(to: QpState)
      requires Valid() && qp.Some?
      modifies this`qp, this`dest
      ensures Valid() && qp.Some?
      ensures State() == ModifyQp(old(State()), to).value
    {
      if LegalMove(qp.value, to) {
        qp := Some(to);
        if to == QpReset {
          dest := None;
        } else if to == QpRtr {
          dest := remote;
        }
      }
    }

    /** False stands for a check that aborts the process. */
    method Connecting(peer: AdapterInfo) returns (ok: bool)
      requires Valid() && qp.Some?
      modifies this
      ensures Valid() && ok == Accepts(old(State()), peer)
      ensures ok <==>
        Named(peer) && device.linkLayer != 0 && (device.linkLayer == 2 ==> peer.linkLayer == 2 && gidIndex >= 0)
      ensures ok ==> State() == ConnectTo(old(State()), peer).value
    {
      if peer.uniqueId == [] || peer.uniqueId[0] == 0 {
        return false;
      }
      remote := Some(peer);
      if self.linkLayer == 0 {
        return false;
      }
      Modify(QpInit);
      if self.linkLayer == ETHERNET {
        if self.linkLayer != remote.value.linkLayer || gidIndex < 0 {
          return false;
        }
      }
      Modify(QpRtr);
      Modify(QpRts);
      ok := true;
    }

    method ResetHca()
      requires Valid() && qp.Some?
      modifies this`qp, this`dest
      ensures Valid() && State() == old(State()).(qp := Some(QpReset), dest := None)
    {
      Modify(QpReset);
    }
  }

  /** The next two frames are the peer's adapter information and its barrier byte. */
  ghost predicate PeerSends(frames: seq<seq<byte>>, theirs: seq<seq<byte>>, peer: AdapterInfo) {
    && peer.Representable()
    && |frames| + 1 < |theirs| && Matching(frames, theirs)
    && theirs[|frames|] == EncodeInfo(peer) && theirs[|frames| + 1] == Q
  }

  class RDMAEndPoint {
    const connector: TCPConnector
    const adapter: RDMAAdapter

    ghost predicate Valid()
      reads this, connector, adapter
    {
      connector.Valid() && adapter.Valid()
    }

    /** Take over a connected socket and check that the peer answers on it. */
    constructor (connector: TCPConnector, adapter: RDMAAdapter, arrivals: seq<nat>, ghost theirs: seq<seq<byte>>)
      requires connector.Valid() && adapter.Valid() && connector.frames == []
      requires connector.incoming == Flatten(theirs) && theirs != [] && theirs[0] == Q && Sum(arrivals) >= 1
      modifies connector
      ensures Valid() && this.connector == connector && this.adapter == adapter
      ensures connector.frames == [[81]]    // "Q"
    {
      this.connector, this.adapter := connector, adapter;
      new;
      var _ := SyncWithPeer(arrivals, theirs);
    }

    /** A one-byte barrier. */
    method SyncWithPeer(arrivals: seq<nat>, ghost theirs: seq<seq<byte>>) returns (ok: bool)
      requires Valid() && connector.incoming == Flatten(theirs) && Matching(connector.frames, theirs)
      requires |connector.frames| < |theirs| && theirs[|connector.frames|] == Q && Sum(arrivals) >= 1
      modifies connector
      ensures Valid() && ok && connector.frames == old(connector.frames) + [Q]
    {
      var temp := new byte[1];
      var difference := connector.SockSyncData(Q, temp, arrivals, theirs);
      ok := difference == 0;
    }

    /** Exchange adapter information, connect, and pass the barrier. `arrivals` says how the
        stream comes in; both frames of the peer do arrive. */
    method Connecting(infoArrivals: seq<nat>, barrierArrivals: seq<nat>,
                      ghost theirs: seq<seq<byte>>, ghost peer: AdapterInfo)
      returns (ok: bool)
      requires Valid() && connector.incoming == Flatten(theirs) && PeerSends(connector.frames, theirs, peer)
      requires Sum(infoArrivals) >= INFO_SIZE && Sum(barrierArrivals) >= 1
      modifies connector, adapter
      ensures Valid() && ok == Accepts(old(adapter.State()), peer)
      ensures ok ==>
        && adapter.State() == ConnectTo(Load(old(adapter.State())), peer).value
        && connector.frames == old(connector.frames) + [EncodeInfo(adapter.device), Q]
    {
      var info := adapter.Loading();
      var peerInfo := new byte[INFO_SIZE];
      var _ := connector.SockSyncData(EncodeInfo(info), peerInfo, infoArrivals, theirs);
      DecodeEncodeInfo(peer);
      assert peerInfo[..] == EncodeInfo(peer);
      ok := adapter.Connecting(DecodeInfo(peerInfo[..]));
      if ok {
        ok := SyncWithPeer(barrierArrivals, theirs);
      }
    }

    /** Back to RESET, then connect again. */
    method Reset(infoArrivals: seq<nat>, barrierArrivals: seq<nat>,
                 ghost theirs: seq<seq<byte>>, ghost peer: AdapterInfo)
      returns (ok: bool)
      requires Valid() && connector.incoming == Flatten(theirs) && PeerSends(connector.frames, theirs, peer)
      requires Sum(infoArrivals) >= INFO_SIZE && Sum(barrierArrivals) >= 1
      requires adapter.qp.Some?
      modifies connector, adapter
      ensures Valid() && ok == Accepts(old(adapter.State()), peer)
      ensures ok ==>
        && adapter.State() == old(adapter.State()).(remote := Some(peer), qp := Some(QpRts), dest := Some(peer))
        && connector.frames == old(connector.frames) + [EncodeInfo(adapter.device), Q]
    {
      adapter.ResetHca();
      ConnectIff(adapter.State(), peer);
      ok := Connecting(infoArrivals, barrierArrivals, theirs, peer);
    }
  }
}
