/**
 * The guards and the outcome of the component's peer-setup effect
 * (src/App.jsx:89-199), with media capture, the local audio element and
 * `play()` reduced to what the environment answers.
 */
module PeerSetup {
  import opened Wrappers
  import opened Session

  const InitiatorRole: string := "initiator"
  const ReceiverRole: string := "receiver"
  const MediaErrorPrefix: string := "Mic access denied or error: "
  const NoLocalAudioError: string := "Local audio element not found!"
  const PeerErrorPrefix: string := "Peer connection error: "
  const CallErrorPrefix: string := "Call error: "

  /** JavaScript truthiness of the role cell: set and not the empty string. */
  predicate HasRole(role: Option<string>) {
    role.Some? && role.value != ""
  }

  /** The effect's early return: setup runs only with a role, a started session and a live socket. */
  predicate SetupAllowed(c: Cells) {
    HasRole(c.role) && c.isConnected && c.socketConnected
  }

  /** On a remote `peer-id`, only an initiator calls, and only a receiver. */
  predicate ShouldCall(localRole: string, remoteRole: string) {
    localRole == InitiatorRole && remoteRole == ReceiverRole
  }

  /** What the environment answers while the effect sets up the peer. */
  datatype MediaEnv = MediaEnv(
    micGranted: bool,         // getUserMedia resolves
    trackCount: nat,          // tracks of the captured stream
    localAudioPresent: bool,  // localAudioRef.current is set
    playSucceeds: bool,       // play() on the local element resolves
    failure: string)          // err.message of whichever step rejected

  /** How far one run of the effect gets. */
  datatype Outcome =
    | NotStarted    // the guard returned early
    | MediaDenied   // getUserMedia rejected
    | NoLocalAudio  // stream captured, no local audio element
    | PlayFailed    // stream captured, play() rejected
    | PeerCreated   // peer constructed and its listeners registered
  {
    predicate StreamAcquired() { NoLocalAudio? || PlayFailed? || PeerCreated? }
  }

  function Plan(allowed: bool, env: MediaEnv): (o: Outcome)
    ensures o == NotStarted <==> !allowed
    ensures o.StreamAcquired() <==> allowed && env.micGranted
    ensures o == PeerCreated <==> allowed && env.micGranted && env.localAudioPresent && env.playSucceeds
    ensures o == NoLocalAudio <==> allowed && env.micGranted && !env.localAudioPresent
  {
    if !allowed then NotStarted
    else if !env.micGranted then MediaDenied
    else if !env.localAudioPresent then NoLocalAudio
    else if !env.playSucceeds then PlayFailed
    else PeerCreated
  }

  /**
   * The cells after one run of the effect: a failed step records its error
   * and nothing else; a run that stops early or creates the peer changes nothing.
   */
  function RecordSetup(c: Cells, o: Outcome, env: MediaEnv): (r: Cells)
    ensures OnlyChanges(c, r, {Error})
    ensures (o == NotStarted || o == PeerCreated) ==> r == c
    ensures o == NoLocalAudio ==> r.error == NoLocalAudioError
    ensures (o == MediaDenied || o == PlayFailed) ==>
      |r.error| > |env.failure| && r.error[|r.error| - |env.failure|..] == env.failure
  {
    match o
    case NotStarted => c
    case PeerCreated => c
    case NoLocalAudio => c.(error := NoLocalAudioError)
    case MediaDenied => c.(error := MediaErrorPrefix + env.failure)
    case PlayFailed => c.(error := MediaErrorPrefix + env.failure)
  }
}
