/**
 * The component itself (src/App.jsx): an object whose fields are the
 * `useState` cells, the socket's outbox and the peer effect's bookkeeping.
 * Every socket handler and `onDrop` is proved to update the cells exactly as
 * the matching function of module Session says; the peer effect is proved
 * to acquire, call and release as module PeerSetup plans.
 */
module AppComponent {
  import opened Wrappers
  import opened Session
  import opened PeerSetup
  import opened Media

  /** The peer effect's dependency list: [role, isConnected, socketConnected]. */
  datatype Deps = Deps(role: Option<string>, isConnected: bool, socketConnected: bool)

  class App {
    // The state cells.
    var game: string          // FEN held by the chess.js game
    var position: string      // what the board widget shows
    var role: Option<string>
    var color: Option<string>
    var isConnected: bool
    var currentTurn: string
    var error: string
    var socketConnected: bool
    // Every socket.emit so far, in order.
    var outbox: seq<Msg>

    // The peer effect.
    var lastDeps: Option<Deps>     // dependencies at the last run; None before the first commit
    var cleanupPending: bool       // the last run returned a cleanup that has not run yet
    var effectRole: string         // the role the last run started with
    var localStream: MediaStream?  // the last run's `localStream`
    var peerInstance: Peer?        // the last run's `peerInstance`
    var peerRef: Peer?             // peerRef.current, which no cleanup clears
    var peerIdListener: bool       // a 'peer-id' listener is registered on the socket

    function Snapshot(): Cells
      reads this
    {
      Cells(game, position, role, color, isConnected, currentTurn, error, socketConnected, outbox)
    }

    function CurrentDeps(): Deps
      reads this
    {
      Deps(role, isConnected, socketConnected)
    }

    /** The peer the last run constructed, if any. */
    function PeerSet(): set<Peer>
      reads this
    {
      if peerInstance == null then {} else {peerInstance}
    }

    /** The tracks of the stream the last run captured, if any. */
    function StreamTracks(): set<Track>
      reads this, localStream
    {
      if localStream == null then {} else set t | t in localStream.tracks
    }

    /**
     * The board agrees with the game; a peer is only ever built on a
     * captured stream; the 'peer-id' listener exists only while the run that
     * registered it is live, on the peer that run built (which a fatal
     * peer error may since have destroyed).
     */
    ghost predicate Valid()
      reads this, peerInstance
    {
      && BoardAgrees(Snapshot())
      && (peerInstance != null ==> localStream != null)
      && (peerIdListener ==> cleanupPending && peerInstance != null)
    }

    /** The component as first rendered: the initial cells, no effect run yet. */
    constructor ()
      ensures Valid()
      ensures Snapshot() == Initial()
      ensures lastDeps == None && !cleanupPending && !peerIdListener
      ensures localStream == null && peerInstance == null && peerRef == null
    {
      game, position := StartFen, StartPosition;
      role, color := None, None;
      isConnected, currentTurn, error, socketConnected := false, InitialTurn, "", false;
      outbox := [];
      lastDeps, cleanupPending, effectRole := None, false, "";
      localStream, peerInstance, peerRef, peerIdListener := null, null, null, false;
    }

    method OnConnect()
      requires Valid()
      modifies this`socketConnected
      ensures Valid()
      ensures Snapshot() == Session.OnConnect(old(Snapshot()))
    {
      socketConnected := true;
    }

    method OnConnectError(message: string)
      requires Valid()
      modifies this`error, this`socketConnected
      ensures Valid()
      ensures Snapshot() == Session.OnConnectError(old(Snapshot()), message)
    {
      error := ConnectFailedPrefix + message;
      socketConnected := false;
    }

    method OnDisconnect()
      requires Valid()
      modifies this`socketConnected, this`isConnected
      ensures Valid()
      ensures Snapshot() == Session.OnDisconnect(old(Snapshot()))
    {
      socketConnected := false;
      isConnected := false;
    }

    method OnMoveBroadcast(san: string, fen: string)
      requires Valid()
      modifies this`game, this`position
      ensures Valid()
      ensures Snapshot() == Session.OnMoveBroadcast(old(Snapshot()), san, fen)
    {
      game := fen;
      position := fen;
    }

    method OnRoleAssigned(newRole: Option<string>, newColor: Option<string>, peerId: string)
      requires Valid()
      modifies this`role, this`color
      ensures Valid()
      ensures Snapshot() == Session.OnRoleAssigned(old(Snapshot()), newRole, newColor, peerId)
    {
      role := newRole;
      color := newColor;
    }

    method OnStart(turn: string, fen: string)
      requires Valid()
      modifies this`isConnected, this`currentTurn, this`position, this`game
      ensures Valid()
      ensures Snapshot() == Session.OnStart(old(Snapshot()), turn, fen)
    {
      isConnected := true;
      currentTurn := turn;
      position := fen;
      game := fen;
    }

    method OnTurnNotice(turn: string)
      requires Valid()
      modifies this`currentTurn
      ensures Valid()
      ensures Snapshot() == Session.OnTurnNotice(old(Snapshot()), turn)
    {
      currentTurn := turn;
    }

    method OnErrorNotice(err: string)
      requires Valid()
      modifies this`error
      ensures Valid()
      ensures Snapshot() == Session.OnErrorNotice(old(Snapshot()), err)
    {
      error := err;
    }

    /** `onDrop`: the turn gate, the validator on the game's FEN, then the update and one emit. */
    method OnDrop(from: string, to: string, validate: Validator) returns (accepted: bool)
      requires Valid()
      modifies this`game, this`position, this`outbox
      ensures Valid()
      ensures accepted == Drop(old(Snapshot()), from, to, validate).accepted
      ensures Snapshot() == Drop(old(Snapshot()), from, to, validate).next
    {
      if color != Some(currentTurn) {
        return false;
      }
      var move := validate(game, from, to, QueenPromotion);
      if move.None? {
        return false;
      }
      game := move.value.fen;
      position := move.value.fen;
      outbox := outbox + [MoveMsg(move.value.san)];
      return true;
    }

    /**
     * `initPeer`, carried to its end: capture, the local audio element,
     * `play()`, then the peer, `peerRef` and the 'peer-id' listener. A
     * failed step records its error and stops; no peer is built without a
     * stream, and the peer is passed `initiator` exactly when the role is
     * initiator (an option PeerJS does not read).
     */
    method InitPeer(env: MediaEnv)
      requires Valid() && cleanupPending && HasRole(role)
      requires localStream == null && peerInstance == null && !peerIdListener
      modifies this`error, this`localStream, this`peerInstance, this`peerRef, this`peerIdListener
      ensures Valid()
      ensures Snapshot() == RecordSetup(old(Snapshot()), Plan(true, env), env)
      ensures (localStream != null) == env.micGranted
      ensures localStream != null ==>
        && fresh(localStream) && |localStream.tracks| == env.trackCount
        && forall t :: t in localStream.tracks ==> fresh(t) && t.live
      ensures (peerInstance != null) == (Plan(true, env) == PeerCreated)
      ensures peerInstance != null ==>
        && fresh(peerInstance) && peerInstance.initiatorOption == (role == Some(InitiatorRole))
        && !peerInstance.destroyed && peerInstance.calls == []
      ensures peerIdListener == (peerInstance != null)
      ensures peerRef == if peerInstance != null then peerInstance else old(peerRef)
    {
      if !env.micGranted {
        error := MediaErrorPrefix + env.failure;
        return;
      }
      var tracks := Capture(env.trackCount);
      localStream := new MediaStream(tracks);
      if !env.localAudioPresent {
        error := NoLocalAudioError;
        return;
      }
      if !env.playSucceeds {
        error := MediaErrorPrefix + env.failure;
        return;
      }
      peerInstance := new Peer(role == Some(InitiatorRole));
      peerRef := peerInstance;
      peerIdListener := true;
    }

    /**
     * One run of the effect body. `cleanupPending` afterwards says whether
     * the guard passed; only then is anything acquired, and what is
     * acquired and recorded is what `Plan` says for the environment.
     */
    method RunPeerEffect(env: MediaEnv)
      requires Valid() && !cleanupPending
      modifies this
      ensures Valid()
      ensures cleanupPending == SetupAllowed(old(Snapshot()))
      ensures cleanupPending ==> HasRole(old(role)) && effectRole == old(role).value
      ensures Snapshot() == RecordSetup(old(Snapshot()), Plan(cleanupPending, env), env)
      ensures (localStream != null) == Plan(cleanupPending, env).StreamAcquired()
      ensures localStream != null ==>
        && fresh(localStream) && |localStream.tracks| == env.trackCount
        && forall t :: t in localStream.tracks ==> fresh(t) && t.live
      ensures (peerInstance != null) == (Plan(cleanupPending, env) == PeerCreated)
      ensures peerInstance != null ==>
        && fresh(peerInstance) && peerInstance.initiatorOption == (old(role) == Some(InitiatorRole))
        && !peerInstance.destroyed && peerInstance.calls == []
      ensures peerIdListener == (peerInstance != null)
      ensures peerRef == if peerInstance != null then peerInstance else old(peerRef)
      ensures lastDeps == old(lastDeps)
    {
      localStream, peerInstance := null, null;
      if !SetupAllowed(Snapshot()) {
        return;
      }
      cleanupPending := true;
      effectRole := role.value;
      InitPeer(env);
    }

    /**
     * The cleanup the effect returned: destroys the peer if one was built,
     * stops every track if a stream was captured, and always drops the
     * 'peer-id' listener; the cells are untouched.
     */
    method CleanupPeerEffect()
      requires Valid() && cleanupPending
      modifies this`cleanupPending, this`peerIdListener, PeerSet(), StreamTracks()
      ensures Valid()
      ensures !cleanupPending && !peerIdListener
      ensures peerInstance != null ==> peerInstance.destroyed && peerInstance.calls == old(peerInstance.calls)
      ensures localStream != null ==> forall t :: t in localStream.tracks ==> !t.live
      ensures Snapshot() == old(Snapshot())
    {
      if peerInstance != null {
        peerInstance.Destroy();
      }
      if localStream != null {
        StopAll(localStream.tracks);
      }
      peerIdListener := false;
      cleanupPending := false;
    }

    /**
     * A re-run of the effect: the pending cleanup, if any, destroys the old
     * peer (keeping its call log) and stops the old tracks; with no cleanup
     * pending they are left as they were. Then the effect runs as
     * `RunPeerEffect` says.
     */
    method RerunPeerEffect(env: MediaEnv)
      requires Valid()
      modifies this, PeerSet(), StreamTracks()
      ensures Valid() && lastDeps == old(lastDeps)
      ensures !old(cleanupPending) ==> unchanged(old(PeerSet())) && unchanged(old(StreamTracks()))
      ensures
        && (old(cleanupPending) && old(peerInstance) != null ==>
              old(peerInstance).destroyed && old(peerInstance).calls == old(peerInstance.calls))
        && (old(cleanupPending) && old(localStream) != null ==> forall t :: t in old(localStream.tracks) ==> !t.live)
      ensures
        && cleanupPending == SetupAllowed(old(Snapshot()))
        && (cleanupPending ==> HasRole(old(role)) && effectRole == old(role).value)
        && Snapshot() == RecordSetup(old(Snapshot()), Plan(cleanupPending, env), env)
      ensures
        && (localStream != null) == Plan(cleanupPending, env).StreamAcquired()
        && (localStream != null ==>
              && fresh(localStream) && |localStream.tracks| == env.trackCount
              && forall t :: t in localStream.tracks ==> fresh(t) && t.live)
      ensures
        && (peerInstance != null) == (Plan(cleanupPending, env) == PeerCreated)
        && (peerInstance != null ==>
              && fresh(peerInstance) && peerInstance.initiatorOption == (old(role) == Some(InitiatorRole))
              && !peerInstance.destroyed && peerInstance.calls == [])
        && peerIdListener == (peerInstance != null)
        && peerRef == (if peerInstance != null then peerInstance else old(peerRef))
    {
      ghost var before, ref := Snapshot(), peerRef;
      if cleanupPending {
        CleanupPeerEffect();
      }
      assert Snapshot() == before && peerRef == ref;
      RunPeerEffect(env);
    }

    /**
     * React's commit of the peer effect: when the dependencies differ from
     * the last run's (or on the first commit), the effect is re-run as
     * `RerunPeerEffect` says; otherwise nothing happens.
     */
    method CommitPeerEffect(env: MediaEnv)
      requires Valid()
      modifies this, PeerSet(), StreamTracks()
      ensures Valid()
      ensures lastDeps == Some(CurrentDeps()) && CurrentDeps() == old(CurrentDeps())
      ensures old(lastDeps) == Some(old(CurrentDeps())) ==>
        unchanged(this) && unchanged(old(PeerSet())) && unchanged(old(StreamTracks()))
      ensures old(lastDeps) != Some(old(CurrentDeps())) && !old(cleanupPending) ==>
        unchanged(old(PeerSet())) && unchanged(old(StreamTracks()))
      ensures old(lastDeps) != Some(old(CurrentDeps())) ==>
        && (old(cleanupPending) && old(peerInstance) != null ==>
              old(peerInstance).destroyed && old(peerInstance).calls == old(peerInstance.calls))
        && (old(cleanupPending) && old(localStream) != null ==> forall t :: t in old(localStream.tracks) ==> !t.live)
      ensures old(lastDeps) != Some(old(CurrentDeps())) ==>
        && cleanupPending == SetupAllowed(old(Snapshot()))
        && (cleanupPending ==> HasRole(old(role)) && effectRole == old(role).value)
        && Snapshot() == RecordSetup(old(Snapshot()), Plan(cleanupPending, env), env)
      ensures old(lastDeps) != Some(old(CurrentDeps())) ==>
        && (localStream != null) == Plan(cleanupPending, env).StreamAcquired()
        && (localStream != null ==>
              && fresh(localStream) && |localStream.tracks| == env.trackCount
              && forall t :: t in localStream.tracks ==> fresh(t) && t.live)
      ensures old(lastDeps) != Some(old(CurrentDeps())) ==>
        && (peerInstance != null) == (Plan(cleanupPending, env) == PeerCreated)
        && (peerInstance != null ==>
              && fresh(peerInstance) && peerInstance.initiatorOption == (old(role) == Some(InitiatorRole))
              && !peerInstance.destroyed && peerInstance.calls == [])
        && peerIdListener == (peerInstance != null)
        && peerRef == (if peerInstance != null then peerInstance else old(peerRef))
    {
      if lastDeps == Some(CurrentDeps()) {
        return;
      }
      lastDeps := Some(CurrentDeps());
      RerunPeerEffect(env);
    }

    /**
     * The socket's 'peer-id' event: only the registered listener acts, and
     * only an initiator hearing from a receiver calls. Through a peer a
     * fatal error has destroyed no call is placed, and the listener then
     * throws on the missing call object, so nothing else changes either.
     */
    method OnRemotePeerId(peerId: string, remoteRole: string)
      requires Valid()
      modifies PeerSet()
      ensures Valid()
      ensures peerInstance != null ==>
        && peerInstance.destroyed == old(peerInstance.destroyed)
        && peerInstance.calls == old(peerInstance.calls) +
             (if peerIdListener && ShouldCall(effectRole, remoteRole) && !old(peerInstance.destroyed)
              then [peerId] else [])
    {
      if peerIdListener && ShouldCall(effectRole, remoteRole) {
        var placed := peerInstance.Call(peerId);
      }
    }

    /** The peer's 'open' event: a live peer announces its id with the role its run started with. */
    method OnPeerOpen(id: string)
      requires Valid()
      modifies this`outbox
      ensures Valid()
      ensures Snapshot() == old(Snapshot()).(outbox := old(outbox) +
        (if peerInstance != null && !peerInstance.destroyed then [PeerIdMsg(id, effectRole)] else []))
    {
      if peerInstance != null && !peerInstance.destroyed {
        outbox := outbox + [PeerIdMsg(id, effectRole)];
      }
    }

    /**
     * The peer's 'error' event: the message is recorded, and a fatal error
     * also destroys the peer, whose 'peer-id' listener stays registered
     * until cleanup.
     */
    method OnPeerError(message: string, fatal: bool)
      requires Valid()
      modifies this`error, PeerSet()
      ensures Valid()
      ensures Snapshot() == old(Snapshot()).(error := if peerInstance != null then PeerErrorPrefix + message else old(error))
      ensures peerInstance != null ==>
        && peerInstance.destroyed == (old(peerInstance.destroyed) || fatal)
        && peerInstance.calls == old(peerInstance.calls)
    {
      if peerInstance != null {
        error := PeerErrorPrefix + message;
        if fatal {
          peerInstance.Destroy();
        }
      }
    }

    /** A placed call's 'error' event. */
    method OnCallError(message: string)
      requires Valid()
      modifies this`error
      ensures Valid()
      ensures Snapshot() == old(Snapshot()).(error :=
        if peerInstance != null && peerInstance.calls != [] then CallErrorPrefix + message else old(error))
    {
      if peerInstance != null && peerInstance.calls != [] {
        error := CallErrorPrefix + message;
      }
    }
  }
}
