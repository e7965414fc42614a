/** The peer-to-peer sync engine: the bookkeeping `usePeerSync` keeps about its
    connections, driven one event at a time. The transport is replaced by event
    methods; each connection object the transport hands out is a numbered channel. */
module PeerSync {
  import opened Common
  import opened Json
  import opened GameStore
  import opened PeerDirectory

  /** Who opened a connection: this side (`connectToPeer`, possibly silent) or the remote
      side (an incoming connection accepted by `setupConnection`). */
  datatype Direction = Outbound(silent: bool) | Inbound

  /** The promise `connectToPeer` returns; the first settlement wins. */
  datatype Settlement = Pending | Resolved | Rejected

  /** One connection object: its remote peer, its direction, the transport's open flag,
      whether its 10-second timeout is still armed, and its promise. */
  datatype Channel = Channel(peer: string, dir: Direction, open: bool, timerPending: bool, promise: Settlement)

  /** What `connectToPeer` does at once: reject (no local peer), resolve without doing
      anything, or start an attempt on a new channel whose promise settles later. */
  datatype ConnectResult = RejectedNow | ResolvedNow | Started(handle: nat)

  /** A message arriving on a connection; only `sync` messages are acted upon. */
  datatype Message = Sync(state: GameState) | OtherMessage

  /** A `sync` message sent on a channel to a peer. */
  datatype Delivery = Delivery(to: string, handle: nat, state: GameState)

  function Settle(s: Settlement, outcome: Settlement): Settlement
  {
    if s.Pending? then outcome else s
  }

  /** The `isReconnecting` flag as `updateConnectingState` computes it. */
  function Reconnecting(ready: bool, connecting: set<string>, pending: seq<string>): bool
  {
    (!ready && (|connecting| > 0 || |pending| > 0)) || |connecting| > 0
  }

  /** Reconnecting means an attempt is under way, or peers remembered from storage
      wait for the local peer to become ready. */
  lemma ReconnectingMeaning(ready: bool, connecting: set<string>, pending: seq<string>)
    ensures Reconnecting(ready, connecting, pending) <==> connecting != {} || (!ready && pending != [])
    ensures ready && connecting == {} ==> !Reconnecting(ready, connecting, pending)
  {
    if connecting != {} {
      var p :| p in connecting;
      assert |connecting| > 0;
    }
  }

  /** The recipients of a list of deliveries, in order. */
  function Recipients(sent: seq<Delivery>): (r: seq<string>)
    ensures |r| == |sent|
    ensures forall i :: 0 <= i < |sent| ==> r[i] == sent[i].to
  {
    if |sent| == 0 then [] else [sent[0].to] + Recipients(sent[1..])
  }

  lemma RecipientsSnoc(sent: seq<Delivery>, d: Delivery)
    ensures Recipients(sent + [d]) == Recipients(sent) + [d.to]
  {
  }

  /** Every mapped peer points at a channel of that peer. */
  predicate MapsToOwnChannels(connections: map<string, nat>, channels: map<nat, Channel>)
  {
    forall p :: p in connections ==> connections[p] in channels && channels[connections[p]].peer == p
  }

  /** Every channel number so far is below the next one. */
  predicate HandlesBelow(channels: map<nat, Channel>, next: nat)
  {
    forall h :: h in channels ==> h < next
  }

  lemma MapsAfterDelete(connections: map<string, nat>, channels: map<nat, Channel>, p: string)
    requires MapsToOwnChannels(connections, channels)
    ensures MapsToOwnChannels(connections - {p}, channels)
  {
  }

  /** Changing a channel's flags, not its peer, keeps both properties. */
  lemma AfterChannelUpdate(connections: map<string, nat>, channels: map<nat, Channel>, next: nat, h: nat, c: Channel)
    requires MapsToOwnChannels(connections, channels) && HandlesBelow(channels, next)
    requires h in channels && c.peer == channels[h].peer
    ensures MapsToOwnChannels(connections, channels[h := c]) && HandlesBelow(channels[h := c], next)
  {
  }

  /** A new channel under the next number, mapped from its peer, keeps both properties. */
  lemma AfterNewChannel(connections: map<string, nat>, channels: map<nat, Channel>, next: nat, c: Channel)
    requires MapsToOwnChannels(connections, channels) && HandlesBelow(channels, next)
    ensures next !in channels
    ensures MapsToOwnChannels(connections[c.peer := next], channels[next := c])
    ensures HandlesBelow(channels[next := c], next + 1)
  {
  }

  /** A channel after its `open` event: open and, for an outbound attempt, with its
      timeout disarmed and its promise resolved. */
  function Opened(c: Channel): (r: Channel)
    ensures r.peer == c.peer && r.dir == c.dir && r.open
    ensures c.dir.Outbound? ==> !r.timerPending && r.promise == Settle(c.promise, Resolved)
    ensures c.dir.Inbound? ==> r.timerPending == c.timerPending && r.promise == c.promise
  {
    if c.dir.Outbound? then c.(open := true, timerPending := false, promise := Settle(c.promise, Resolved))
    else c.(open := true)
  }

  /** An outbound attempt after its timeout or its `error` event: timeout disarmed,
      promise rejected unless already settled. */
  function Failed(c: Channel): (r: Channel)
    ensures r.peer == c.peer && r.dir == c.dir && r.open == c.open
    ensures !r.timerPending && r.promise == Settle(c.promise, Rejected)
  {
    c.(timerPending := false, promise := Settle(c.promise, Rejected))
  }

  /** Every channel mapped from some peer closed, the others as they were. */
  function CloseMapped(channels: map<nat, Channel>, connections: map<string, nat>): (r: map<nat, Channel>)
    ensures r.Keys == channels.Keys
    ensures forall h :: h in r ==>
              r[h] == if h in connections.Values then channels[h].(open := false) else channels[h]
  {
    map h | h in channels :: if h in connections.Values then channels[h].(open := false) else channels[h]
  }

  class Engine {
    /** React state returned by the hook. */
    var peerId: string
    var connectedPeers: seq<string>
    var isConnecting: bool
    var isReconnecting: bool
    var isPeerReady: bool
    /** `peerRef`: whether a local peer exists, and its id (`''` until the signalling
        server assigns one when none was requested). */
    var hasPeer: bool
    var localId: string
    /** `connectionsRef`, `connectingPeersRef`, `storedPeersRef`, `gameStateRef`. */
    var connections: map<string, nat>
    var connecting: set<string>
    var pendingPeers: seq<string>
    var gameState: GameState
    /** Every connection object handed out so far, by number. */
    var channels: map<nat, Channel>
    var nextHandle: nat
    /** The two storage keys: the own peer id and the known-peer list. */
    var storedSelfId: Option<string>
    var storedPeers: Stored

    /** The connection map points at channels of the mapped peer; channel numbers are
        fresh; the visible list holds each peer at most once. */
    predicate Valid()
      reads this`connections, this`channels, this`nextHandle, this`connectedPeers
    {
      && MapsToOwnChannels(connections, channels)
      && HandlesBelow(channels, nextHandle)
      && NoDup(connectedPeers)
    }

    /** `connectionsRef.current.get(p)?.open`. */
    predicate IsOpen(p: string)
      reads this`connections, this`channels
    {
      p in connections && connections[p] in channels && channels[connections[p]].open
    }

    /** Open or being connected: the state in which `connectToPeer` does nothing. */
    predicate Active(p: string)
      reads this`connections, this`channels, this`connecting
    {
      IsOpen(p) || p in connecting
    }

    /** Mounting the hook: empty bookkeeping, then `initPeer` with the stored id and
        the stored peer list. */
    constructor (savedSelfId: Option<string>, savedPeers: Stored, state: GameState)
      ensures Valid()
      ensures peerId == "" && connectedPeers == [] && !isConnecting
      ensures connections == map[] && connecting == {} && channels == map[]
      ensures hasPeer && localId == ReadStoredPeerId(savedSelfId)
      ensures pendingPeers == ReadStoredPeers(savedPeers) && !isPeerReady
      ensures isReconnecting == (pendingPeers != [])
      ensures storedSelfId == savedSelfId && storedPeers == savedPeers && gameState == state
    {
      peerId := "";
      connectedPeers := [];
      isConnecting := false;
      isReconnecting := false;
      isPeerReady := false;
      hasPeer := false;
      localId := "";
      connections := map[];
      connecting := {};
      pendingPeers := [];
      gameState := state;
      channels := map[];
      nextHandle := 0;
      storedSelfId := savedSelfId;
      storedPeers := savedPeers;
      new;
      InitPeer(ReadStoredPeerId(savedSelfId), ReadStoredPeers(savedPeers));
      ReconnectingMeaning(false, connecting, pendingPeers);
    }

    /** `updateConnectingState`: recompute `isReconnecting`, with the readiness given or,
        when none is given, the current one. */
    method UpdateConnectingState(readyOverride: Option<bool>)
      modifies this`isReconnecting
      ensures isReconnecting ==
              Reconnecting(if readyOverride.Some? then readyOverride.value else isPeerReady, connecting, pendingPeers)
    {
      var ready := if readyOverride.Some? then readyOverride.value else isPeerReady;
      isReconnecting := Reconnecting(ready, connecting, pendingPeers);
    }

    /** `initPeer`: remember the peers to reconnect to, mark the peer not ready and
        create a local peer, with the requested id or, for `''`, one the server assigns. */
    method InitPeer(requestedPeerId: string, stored: seq<string>)
      modifies this`pendingPeers, this`isPeerReady, this`isReconnecting, this`hasPeer, this`localId
      ensures pendingPeers == stored && !isPeerReady
      ensures isReconnecting == Reconnecting(false, connecting, stored)
      ensures hasPeer && localId == requestedPeerId
    {
      pendingPeers := stored;
      isPeerReady := false;
      UpdateConnectingState(Some(false));
      hasPeer := true;
      localId := requestedPeerId;
    }

    /** `gameStateRef` follows the current game state. */
    method SetGameState(state: GameState)
      modifies this`gameState
      ensures gameState == state
    {
      gameState := state;
    }

    /** `connectToPeer`: reject without a local peer; resolve and change nothing for the
        empty id, the own id, or a peer already open or being connected; otherwise put
        the id in the connecting set and the connection map, on a new channel whose
        timeout is armed. */
    method ConnectToPeer(remotePeerId: string, silent: bool) returns (r: ConnectResult)
      requires Valid()
      modifies this`isConnecting, this`connecting, this`isReconnecting, this`channels,
               this`nextHandle, this`connections
      ensures Valid()
      ensures r.RejectedNow? <==> !old(hasPeer)
      ensures r.ResolvedNow? <==>
                old(hasPeer) && (remotePeerId == "" || remotePeerId == localId || old(Active(remotePeerId)))
      ensures !r.Started? ==>
                && connections == old(connections) && connecting == old(connecting)
                && channels == old(channels) && nextHandle == old(nextHandle)
                && isConnecting == old(isConnecting) && isReconnecting == old(isReconnecting)
      ensures r.Started? ==>
                && r.handle == old(nextHandle) && r.handle !in old(channels)
                && nextHandle == old(nextHandle) + 1
                && channels == old(channels)[r.handle := Channel(remotePeerId, Outbound(silent), false, true, Pending)]
                && connections == old(connections)[remotePeerId := r.handle]
                && connecting == old(connecting) + {remotePeerId}
                && isConnecting == (old(isConnecting) || !silent)
                && isReconnecting == Reconnecting(isPeerReady, connecting, pendingPeers)
                && isReconnecting
      ensures forall p :: old(Active(p)) ==> Active(p)
    {
      if !hasPeer {
        return RejectedNow;
      }
      if remotePeerId == "" || remotePeerId == localId || Active(remotePeerId) {
        return ResolvedNow;
      }
      var h := StartAttempt(remotePeerId, silent);
      r := Started(h);
    }

    /** A new outbound attempt: `isConnecting` set unless silent, the peer added to the
        connecting set with `isReconnecting` recomputed, and a new channel with its
        timeout armed mapped from the peer. */
    method StartAttempt(remotePeerId: string, silent: bool) returns (h: nat)
      requires Valid()
      modifies this`isConnecting, this`connecting, this`isReconnecting, this`channels,
               this`nextHandle, this`connections
      ensures Valid()
      ensures h == old(nextHandle) && h !in old(channels) && nextHandle == old(nextHandle) + 1
      ensures channels == old(channels)[h := Channel(remotePeerId, Outbound(silent), false, true, Pending)]
      ensures connections == old(connections)[remotePeerId := h]
      ensures connecting == old(connecting) + {remotePeerId}
      ensures isConnecting == (old(isConnecting) || !silent)
      ensures isReconnecting == Reconnecting(isPeerReady, connecting, pendingPeers)
    {
      if !silent {
        isConnecting := true;
      }
      connecting := connecting + {remotePeerId};
      UpdateConnectingState(None);
      h := nextHandle;
      AfterNewChannel(connections, channels, h, Channel(remotePeerId, Outbound(silent), false, true, Pending));
      nextHandle := nextHandle + 1;
      channels := channels[h := Channel(remotePeerId, Outbound(silent), false, true, Pending)];
      connections := connections[remotePeerId := h];
    }

    /** Replace a channel's flags (not its peer). */
    method SetChannel(h: nat, c: Channel)
      requires Valid() && h in channels && c.peer == channels[h].peer
      modifies this`channels
      ensures Valid()
      ensures channels == old(channels)[h := c]
    {
      AfterChannelUpdate(connections, channels, nextHandle, h, c);
      channels := channels[h := c];
    }

    /** `connectingPeersRef.current.delete(p); updateConnectingState()`. */
    method StopConnecting(p: string)
      modifies this`connecting, this`isReconnecting
      ensures connecting == old(connecting) - {p}
      ensures isReconnecting == Reconnecting(isPeerReady, connecting, pendingPeers)
    {
      connecting := connecting - {p};
      UpdateConnectingState(None);
    }

    /** `connectionsRef.current.delete(p)` and `p` filtered out of `connectedPeers`. */
    method DropPeer(p: string)
      requires Valid()
      modifies this`connections, this`connectedPeers
      ensures Valid()
      ensures connections == old(connections) - {p}
      ensures connectedPeers == Without(old(connectedPeers), p)
    {
      MapsAfterDelete(connections, channels, p);
      connections := connections - {p};
      connectedPeers := Without(connectedPeers, p);
    }

    /** `p` added to `connectedPeers` unless listed already. */
    method ListPeer(p: string)
      requires Valid()
      modifies this`connectedPeers
      ensures Valid()
      ensures connectedPeers == AppendNew(old(connectedPeers), p)
    {
      connectedPeers := AppendNew(connectedPeers, p);
    }

    /** `addStoredPeer(p)` and `p` added to `connectedPeers` unless listed already. */
    method RecordOpen(p: string)
      requires Valid()
      modifies this`storedPeers, this`connectedPeers
      ensures Valid()
      ensures storedPeers == AddStoredPeer(old(storedPeers), p)
      ensures connectedPeers == AppendNew(old(connectedPeers), p)
    {
      storedPeers := AddStoredPeer(storedPeers, p);
      ListPeer(p);
    }

    /** The `open` handler of an outbound attempt: timeout disarmed, promise resolved,
        the peer out of the connecting set with `isReconnecting` recomputed, stored and
        listed, and `isConnecting` cleared unless the attempt is silent. Nothing is sent. */
    method OpenOutbound(h: nat)
      requires Valid() && h in channels && channels[h].dir.Outbound?
      modifies this`channels, this`connecting, this`isReconnecting, this`storedPeers,
               this`connectedPeers, this`isConnecting
      ensures Valid()
      ensures var c := old(channels[h]);
              && channels == old(channels)[h := Opened(c)]
              && connecting == old(connecting) - {c.peer}
              && isReconnecting == Reconnecting(isPeerReady, connecting, pendingPeers)
              && storedPeers == AddStoredPeer(old(storedPeers), c.peer)
              && connectedPeers == AppendNew(old(connectedPeers), c.peer)
              && isConnecting == (old(isConnecting) && c.dir.silent)
    {
      var c := channels[h];
      SetChannel(h, Opened(c));
      StopConnecting(c.peer);
      RecordOpen(c.peer);
      if !c.dir.silent {
        isConnecting := false;
      }
    }

    /** The `open` handler of an accepted incoming connection: the peer out of the
        connecting set (`isReconnecting` not recomputed), stored and listed,
        `isConnecting` cleared, and the current state sent to the joining peer. */
    method OpenInbound(h: nat) returns (join: Delivery)
      requires Valid() && h in channels && channels[h].dir.Inbound?
      modifies this`channels, this`connecting, this`storedPeers, this`connectedPeers, this`isConnecting
      ensures Valid()
      ensures var c := old(channels[h]);
              && channels == old(channels)[h := Opened(c)]
              && connecting == old(connecting) - {c.peer}
              && storedPeers == AddStoredPeer(old(storedPeers), c.peer)
              && connectedPeers == AppendNew(old(connectedPeers), c.peer)
              && !isConnecting
              && join == Delivery(c.peer, h, gameState)
    {
      var c := channels[h];
      SetChannel(h, Opened(c));
      connecting := connecting - {c.peer};
      RecordOpen(c.peer);
      isConnecting := false;
      join := Delivery(c.peer, h, gameState);
    }

    /** The `open` event of a channel, handled by the handler of its direction: only an
        inbound connection sends the joining peer a `sync`. */
    method OnOpen(h: nat) returns (join: Option<Delivery>)
      requires Valid() && h in channels
      modifies this`channels, this`connecting, this`isReconnecting, this`storedPeers,
               this`connectedPeers, this`isConnecting
      ensures Valid()
      ensures var c := old(channels[h]);
              && channels == old(channels)[h := Opened(c)]
              && connecting == old(connecting) - {c.peer}
              && storedPeers == AddStoredPeer(old(storedPeers), c.peer)
              && connectedPeers == AppendNew(old(connectedPeers), c.peer)
      ensures old(channels[h]).dir.Outbound? ==>
                && isReconnecting == Reconnecting(isPeerReady, connecting, pendingPeers)
                && isConnecting == (old(isConnecting) && old(channels[h]).dir.silent)
                && join == None
      ensures old(channels[h]).dir.Inbound? ==>
                && isReconnecting == old(isReconnecting)
                && !isConnecting
                && join == Some(Delivery(old(channels[h]).peer, h, gameState))
    {
      if channels[h].dir.Outbound? {
        OpenOutbound(h);
        join := None;
      } else {
        var d := OpenInbound(h);
        join := Some(d);
      }
    }

    /** The `data` event: a `sync` message hands its state to the remote-update
        callback; anything else is ignored. Nothing in the engine changes. */
    method OnData(h: nat, m: Message) returns (update: Option<GameState>)
      requires h in channels
      ensures update.Some? <==> m.Sync?
      ensures m.Sync? ==> update == Some(m.state)
    {
      if m.Sync? {
        update := Some(m.state);
      } else {
        update := None;
      }
    }

    /** The `close` event: the channel is no longer open, and whatever the map holds for
        its peer, and the peer's place in `connectedPeers`, are dropped. An outbound
        attempt also leaves the connecting set (its timeout stays armed); an inbound
        connection does not touch the connecting set. */
    method OnClose(h: nat)
      requires Valid() && h in channels
      modifies this`channels, this`connecting, this`isReconnecting, this`connections, this`connectedPeers
      ensures Valid()
      ensures var c := old(channels[h]);
              && channels == old(channels)[h := c.(open := false)]
              && connections == old(connections) - {c.peer}
              && connectedPeers == Without(old(connectedPeers), c.peer)
              && (c.dir.Outbound? ==>
                    connecting == old(connecting) - {c.peer}
                    && isReconnecting == Reconnecting(isPeerReady, connecting, pendingPeers))
              && (c.dir.Inbound? ==> connecting == old(connecting) && isReconnecting == old(isReconnecting))
    {
      var c := channels[h];
      var p := c.peer;
      SetChannel(h, c.(open := false));
      if c.dir.Outbound? {
        StopConnecting(p);
      }
      DropPeer(p);
    }

    /** The `error` event: the peer leaves the map and `connectedPeers`. An outbound
        attempt also disarms its timeout, leaves the connecting set, clears
        `isConnecting` unless silent and rejects; an inbound connection does no more. */
    method OnError(h: nat)
      requires Valid() && h in channels
      modifies this`channels, this`connecting, this`isReconnecting, this`connections,
               this`connectedPeers, this`isConnecting
      ensures Valid()
      ensures var c := old(channels[h]);
              && connections == old(connections) - {c.peer}
              && connectedPeers == Without(old(connectedPeers), c.peer)
              && (c.dir.Outbound? ==>
                    && channels == old(channels)[h := Failed(c)]
                    && connecting == old(connecting) - {c.peer}
                    && isReconnecting == Reconnecting(isPeerReady, connecting, pendingPeers)
                    && isConnecting == (old(isConnecting) && c.dir.silent))
              && (c.dir.Inbound? ==>
                    && channels == old(channels) && connecting == old(connecting)
                    && isReconnecting == old(isReconnecting) && isConnecting == old(isConnecting))
    {
      var c := channels[h];
      var p := c.peer;
      if c.dir.Outbound? {
        SetChannel(h, Failed(c));
        StopConnecting(p);
        DropPeer(p);
        if !c.dir.silent {
          isConnecting := false;
        }
      } else {
        DropPeer(p);
      }
    }

    /** The 10-second timeout of an outbound attempt fires: the peer leaves the
        connecting set and the map, `isConnecting` is cleared unless silent, and the
        attempt rejects. `connectedPeers` is not touched. */
    method OnTimeout(h: nat)
      requires Valid() && h in channels && channels[h].dir.Outbound? && channels[h].timerPending
      modifies this`channels, this`connecting, this`isReconnecting, this`connections, this`isConnecting
      ensures Valid()
      ensures var c := old(channels[h]);
              && channels == old(channels)[h := Failed(c)]
              && connecting == old(connecting) - {c.peer}
              && connections == old(connections) - {c.peer}
              && isReconnecting == Reconnecting(isPeerReady, connecting, pendingPeers)
              && isConnecting == (old(isConnecting) && c.dir.silent)
    {
      var c := channels[h];
      var p := c.peer;
      SetChannel(h, Failed(c));
      if !c.dir.silent {
        isConnecting := false;
      }
      StopConnecting(p);
      MapsAfterDelete(connections, channels, p);
      connections := connections - {p};
    }

    /** An incoming connection (`setupConnection`): refused, and nothing recorded, when
        the peer is already open or being connected; otherwise it replaces whatever the
        map held for the peer, on a new channel. */
    method OnIncoming(remotePeerId: string) returns (h: Option<nat>)
      requires Valid()
      modifies this`channels, this`nextHandle, this`connections
      ensures Valid()
      ensures h.None? <==> old(Active(remotePeerId))
      ensures h.None? ==>
                channels == old(channels) && connections == old(connections) && nextHandle == old(nextHandle)
      ensures h.Some? ==>
                && h.value == old(nextHandle) && h.value !in old(channels)
                && nextHandle == old(nextHandle) + 1
                && channels == old(channels)[h.value := Channel(remotePeerId, Inbound, false, false, Pending)]
                && connections == old(connections)[remotePeerId := h.value]
    {
      if Active(remotePeerId) {
        return None;
      }
      var n := nextHandle;
      AfterNewChannel(connections, channels, n, Channel(remotePeerId, Inbound, false, false, Pending));
      nextHandle := nextHandle + 1;
      channels := channels[n := Channel(remotePeerId, Inbound, false, false, Pending)];
      connections := connections[remotePeerId := n];
      h := Some(n);
    }

    /** `removePeer`: close the peer's mapped channel, then drop the peer from the map,
        the connecting set, `connectedPeers` and the stored list. */
    method RemovePeer(remotePeerId: string)
      requires Valid()
      modifies this`channels, this`connections, this`connecting, this`isReconnecting,
               this`connectedPeers, this`storedPeers
      ensures Valid()
      ensures remotePeerId in old(connections) ==>
                var h := old(connections[remotePeerId]);
                channels == old(channels)[h := old(channels[h]).(open := false)]
      ensures remotePeerId !in old(connections) ==> channels == old(channels)
      ensures connections == old(connections) - {remotePeerId}
      ensures connecting == old(connecting) - {remotePeerId}
      ensures isReconnecting == Reconnecting(isPeerReady, connecting, pendingPeers)
      ensures connectedPeers == Without(old(connectedPeers), remotePeerId)
      ensures storedPeers == RemoveStoredPeer(old(storedPeers), remotePeerId)
      ensures remotePeerId !in connections && remotePeerId !in connecting
      ensures remotePeerId !in connectedPeers && remotePeerId !in ReadStoredPeers(storedPeers)
    {
      ForgetConnection(remotePeerId);
      UnlistPeer(remotePeerId);
    }

    /** The last steps of `removePeer`: the peer filtered out of `connectedPeers` and
        removed from the stored list. */
    method UnlistPeer(p: string)
      requires Valid()
      modifies this`connectedPeers, this`storedPeers
      ensures Valid()
      ensures connectedPeers == Without(old(connectedPeers), p)
      ensures storedPeers == RemoveStoredPeer(old(storedPeers), p)
      ensures p !in connectedPeers && p !in ReadStoredPeers(storedPeers)
    {
      connectedPeers := Without(connectedPeers, p);
      UnstorePeer(p);
    }

    /** The first steps of `removePeer`: the mapped channel closed, the peer out of the
        map and the connecting set, `isReconnecting` recomputed. */
    method ForgetConnection(p: string)
      requires Valid()
      modifies this`channels, this`connections, this`connecting, this`isReconnecting
      ensures Valid()
      ensures p in old(connections) ==>
                var h := old(connections[p]);
                channels == old(channels)[h := old(channels[h]).(open := false)]
      ensures p !in old(connections) ==> channels == old(channels)
      ensures connections == old(connections) - {p}
      ensures connecting == old(connecting) - {p}
      ensures isReconnecting == Reconnecting(isPeerReady, connecting, pendingPeers)
    {
      if p in connections {
        var h := connections[p];
        SetChannel(h, channels[h].(open := false));
      }
      MapsAfterDelete(connections, channels, p);
      connections := connections - {p};
      StopConnecting(p);
    }

    /** `removeStoredPeer(p)`: afterwards `p` is no longer listed. */
    method UnstorePeer(p: string)
      modifies this`storedPeers
      ensures storedPeers == RemoveStoredPeer(old(storedPeers), p)
      ensures p !in ReadStoredPeers(storedPeers)
    {
      RemoveStoredPeerSpec(storedPeers, p);
      storedPeers := RemoveStoredPeer(storedPeers, p);
    }

    /** Close every mapped channel (the `forEach(conn => conn.close())`). */
    method CloseAll()
      requires Valid()
      modifies this`channels
      ensures Valid()
      ensures channels == CloseMapped(old(channels), connections)
    {
      var todo := connections.Values;
      while todo != {}
        invariant Valid()
        invariant todo <= connections.Values
        invariant channels.Keys == old(channels).Keys
        invariant forall h :: h in channels ==>
                    channels[h] == if h in connections.Values && h !in todo
                                   then old(channels[h]).(open := false) else old(channels[h])
        decreases todo
      {
        var h :| h in todo;
        var p :| p in connections && connections[p] == h;
        SetChannel(h, channels[h].(open := false));
        todo := todo - {h};
      }
      assert channels == CloseMapped(old(channels), connections);
    }

    /** The mount effect's cleanup: every mapped connection closed, the peer not ready
        and `isReconnecting` recomputed as for a peer that is not ready. The map and the
        other bookkeeping stay as they are. */
    method Unmount()
      requires Valid()
      modifies this`channels, this`isPeerReady, this`isReconnecting
      ensures Valid()
      ensures channels == CloseMapped(old(channels), connections)
      ensures !isPeerReady
      ensures isReconnecting == (|connecting| > 0 || |pendingPeers| > 0)
    {
      CloseAll();
      isPeerReady := false;
      UpdateConnectingState(Some(false));
    }

    /** `clearStoredPeerId` and `storePeers([])`. */
    method ClearStorage()
      modifies this`storedSelfId, this`storedPeers
      ensures storedSelfId == None && storedPeers == StorePeers([])
    {
      storedSelfId := None;
      storedPeers := StorePeers([]);
    }

    /** The first half of `resetPeerId`: close every mapped connection, then clear the
        map, the connecting set, `connectedPeers` and both connecting flags. */
    method ForgetConnections()
      requires Valid()
      modifies this`channels, this`connections, this`connecting, this`connectedPeers,
               this`isConnecting, this`isReconnecting
      ensures Valid()
      ensures connections == map[] && connecting == {} && connectedPeers == []
      ensures !isConnecting && !isReconnecting
      ensures channels == CloseMapped(old(channels), old(connections))
    {
      CloseAll();
      connections := map[];
      connecting := {};
      connectedPeers := [];
      isConnecting := false;
      isReconnecting := false;
    }

    /** `resetPeerId`: close and forget every connection, clear the bookkeeping and
        both storage keys, and start over with a server-assigned id and no peers to
        reconnect to. */
    method ResetPeerId()
      requires Valid()
      modifies this`channels, this`connections, this`connecting, this`connectedPeers,
               this`isConnecting, this`isReconnecting, this`isPeerReady, this`hasPeer,
               this`localId, this`peerId, this`pendingPeers, this`storedSelfId, this`storedPeers
      ensures Valid()
      ensures connections == map[] && connecting == {} && connectedPeers == []
      ensures storedSelfId == None && storedPeers == StorePeers([]) && peerId == ""
      ensures !isConnecting && !isReconnecting && !isPeerReady
      ensures hasPeer && localId == "" && pendingPeers == []
      ensures channels == CloseMapped(old(channels), old(connections))
    {
      ForgetConnections();
      hasPeer := false;
      peerId := "";
      ClearStorage();
      InitPeer("", []);
    }

    /** `broadcastState`: one `sync` with the given state on the mapped channel of
        every peer whose connection is open, and on no other. Nothing changes. */
    method BroadcastState(state: GameState) returns (sent: seq<Delivery>)
      requires Valid()
      ensures NoDup(Recipients(sent))
      ensures forall p :: p in Recipients(sent) <==> IsOpen(p)
      ensures forall i :: 0 <= i < |sent| ==>
                sent[i].to in connections && sent[i] == Delivery(sent[i].to, connections[sent[i].to], state)
    {
      sent := [];
      var todo := connections.Keys;
      while todo != {}
        invariant todo <= connections.Keys
        invariant NoDup(Recipients(sent))
        invariant forall p :: p in Recipients(sent) <==> p !in todo && IsOpen(p)
        invariant forall i :: 0 <= i < |sent| ==>
                    sent[i].to in connections && sent[i] == Delivery(sent[i].to, connections[sent[i].to], state)
        decreases todo
      {
        var p :| p in todo;
        if IsOpen(p) {
          RecipientsSnoc(sent, Delivery(p, connections[p], state));
          sent := sent + [Delivery(p, connections[p], state)];
        }
        todo := todo - {p};
      }
    }

    /** The local peer's `open` event: record and store the id, mark the peer ready,
        and start a silent attempt to every remembered peer other than itself that is
        not open yet. Afterwards each such peer is open or being connected. */
    method OnPeerOpen(id: string)
      requires Valid() && hasPeer
      modifies this`peerId, this`localId, this`storedSelfId, this`isPeerReady, this`isReconnecting,
               this`isConnecting, this`connecting, this`channels, this`nextHandle, this`connections
      ensures Valid()
      ensures peerId == id && localId == id && storedSelfId == Some(id) && isPeerReady
      ensures forall p :: p in pendingPeers && p != "" && p != id ==> Active(p)
      ensures forall p :: old(Active(p)) ==> Active(p)
      ensures isReconnecting == Reconnecting(true, connecting, pendingPeers)
      ensures isConnecting == old(isConnecting)
      ensures old(connecting) <= connecting && old(channels).Keys <= channels.Keys
    {
      peerId := id;
      localId := id;
      storedSelfId := Some(id);
      isPeerReady := true;
      UpdateConnectingState(Some(true));
      ReconnectPending();
    }

    /** The auto-reconnect loop of the local peer's `open` event: a silent attempt to
        every remembered peer other than the local one that is not open yet. */
    method ReconnectPending()
      requires Valid() && hasPeer && isPeerReady
      requires isReconnecting == Reconnecting(true, connecting, pendingPeers)
      modifies this`isReconnecting, this`isConnecting, this`connecting, this`channels,
               this`nextHandle, this`connections
      ensures Valid()
      ensures forall p :: p in pendingPeers && p != "" && p != localId ==> Active(p)
      ensures forall p :: old(Active(p)) ==> Active(p)
      ensures isReconnecting == Reconnecting(true, connecting, pendingPeers)
      ensures isConnecting == old(isConnecting)
      ensures old(connecting) <= connecting && old(channels).Keys <= channels.Keys
    {
      var i := 0;
      while i < |pendingPeers|
        invariant 0 <= i <= |pendingPeers|
        invariant Valid()
        invariant forall j :: 0 <= j < i && pendingPeers[j] != "" && pendingPeers[j] != localId ==> Active(pendingPeers[j])
        invariant forall p :: old(Active(p)) ==> Active(p)
        invariant isReconnecting == Reconnecting(true, connecting, pendingPeers)
        invariant isConnecting == old(isConnecting)
        invariant old(connecting) <= connecting && old(channels).Keys <= channels.Keys
      {
        var remote := pendingPeers[i];
        if remote != localId && !IsOpen(remote) {
          var _ := ConnectToPeer(remote, true);
        }
        i := i + 1;
      }
    }

    /** The local peer's `error` event: not ready, `isReconnecting` recomputed as for an
        unready peer, `isConnecting` cleared. */
    method OnPeerError()
      modifies this`isPeerReady, this`isReconnecting, this`isConnecting
      ensures !isPeerReady && !isConnecting
      ensures isReconnecting == Reconnecting(false, connecting, pendingPeers)
    {
      isPeerReady := false;
      UpdateConnectingState(Some(false));
      isConnecting := false;
    }
  }
}
