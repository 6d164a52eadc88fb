/** The media and peer objects the component acquires and must release. */
module Media {

  /** A captured media track; `stop()` ends it for good. */
  class Track {
    var live: bool

    constructor ()
      ensures live
    {
      live := true;
    }

    method Stop()
      modifies this
      ensures !live
    {
      live := false;
    }
  }

  /** A captured stream: a fixed list of tracks. */
  class MediaStream {
    const tracks: seq<Track>

    constructor (tracks: seq<Track>)
      ensures this.tracks == tracks
    {
      this.tracks := tracks;
    }
  }

  /**
   * A peer object: the `initiator` option its constructor was passed (a
   * PeerJS peer does not read it), whether it is destroyed, whom it has called.
   */
  class Peer {
    const initiatorOption: bool
    var destroyed: bool
    var calls: seq<string>

    constructor (initiatorOption: bool)
      ensures this.initiatorOption == initiatorOption && !destroyed && calls == []
    {
      this.initiatorOption := initiatorOption;
      destroyed := false;
      calls := [];
    }

    method Destroy()
      modifies this
      ensures destroyed && calls == old(calls)
    {
      destroyed := true;
    }

    /**
     * Calls `peerId`. A live peer places and logs the call; a destroyed one
     * places none and hands back no call object.
     */
    method Call(peerId: string) returns (placed: bool)
      modifies this
      ensures placed == !destroyed && destroyed == old(destroyed)
      ensures calls == old(calls) + (if placed then [peerId] else [])
    {
      placed := !destroyed;
      if placed {
        calls := calls + [peerId];
      }
    }
  }

  /** Captures `n` live tracks (the answer of `getUserMedia`). */
  method Capture(n: nat) returns (tracks: seq<Track>)
    ensures |tracks| == n
    ensures forall t :: t in tracks ==> fresh(t) && t.live
  {
    tracks := [];
    while |tracks| < n
      invariant |tracks| <= n
      invariant forall t :: t in tracks ==> fresh(t) && t.live
    {
      var t := new Track();
      tracks := tracks + [t];
    }
  }

  /** `getTracks().forEach(track => track.stop())`: ends every track of the list. */
  method StopAll(tracks: seq<Track>)
    modifies set t | t in tracks
    ensures forall t :: t in tracks ==> !t.live
  {
    var i := 0;
    while i < |tracks|
      invariant 0 <= i <= |tracks|
      invariant forall k :: 0 <= k < i ==> !tracks[k].live
    {
      tracks[i].Stop();
      i := i + 1;
    }
  }
}
