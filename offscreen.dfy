/**
 * The offscreen document: the registry `activeStreams` from tab id to the
 * audio session built for that tab, and the three messages that change it.
 * A session's Web Audio graph is reduced to what its lifecycle needs: the
 * stream's tracks (live or ended), the gain node's integer percent and
 * whether the AudioContext has been closed. Sessions that were torn down are
 * kept, in order, in `released`, so that the model can say what happened to
 * them after they left the registry.
 */
module Offscreen {
  import opened Wrappers
  import opened JsValues
  import opened Volume
  import opened Messages

  datatype TrackState = Live | Ended

  /** One value of `activeStreams`: `{ audioContext, gainNode, stream }`. */
  datatype Session = Session(streamId: string, tracks: seq<TrackState>, gainPercent: int, contextClosed: bool)

  predicate AllEnded(tracks: seq<TrackState>) {
    forall i :: 0 <= i < |tracks| ==> tracks[i] == Ended
  }

  /** Every track stopped and the audio context closed. */
  predicate TornDown(s: Session) {
    AllEnded(s.tracks) && s.contextClosed
  }

  /** The sessions in `activeStreams`, and the ones torn down so far, oldest first. */
  datatype Registry = Registry(active: map<int, Session>, released: seq<Session>)

  /** Live sessions hold an open context; released sessions are fully torn down. */
  predicate Consistent(reg: Registry) {
    && (forall t | t in reg.active :: !reg.active[t].contextClosed)
    && (forall i | 0 <= i < |reg.released| :: TornDown(reg.released[i]))
  }

  /** A session with every track stopped and its context closed; nothing else differs. */
  function TearDown(s: Session): (r: Session)
    ensures TornDown(r)
    ensures r.streamId == s.streamId && r.gainPercent == s.gainPercent && |r.tracks| == |s.tracks|
  {
    s.(tracks := seq(|s.tracks|, _ => Ended), contextClosed := true)
  }

  /** The session `startAudio` registers for a stream of `trackCount` tracks. */
  function NewSession(streamId: string, trackCount: nat, initialVolume: int): Session {
    Session(streamId, seq(trackCount, _ => Live), initialVolume, false)
  }

  /** `stopAudio(tabId)`. */
  function AfterStop(reg: Registry, tabId: int): Registry {
    if tabId in reg.active then Registry(reg.active - {tabId}, reg.released + [TearDown(reg.active[tabId])])
    else reg
  }

  /**
   * `startAudio({streamId, tabId, initialVolume})`; `stream` is what
   * `getUserMedia` delivers (the number of tracks), `None` when it rejects.
   */
  function AfterStartAudio(reg: Registry, streamId: string, tabId: int, initialVolume: int, stream: Option<nat>): Registry {
    match stream
    case None => reg
    case Some(n) => reg.(active := reg.active[tabId := NewSession(streamId, n, initialVolume)])
  }

  /** `gainNode.gain.value = vol / 100` on the session of `tabId`, if there is one. */
  function WithGain(reg: Registry, tabId: int, vol: int): Registry {
    if tabId in reg.active then reg.(active := reg.active[tabId := reg.active[tabId].(gainPercent := vol)])
    else reg
  }

  /** `updateVolume(tabId, newVolume)`. */
  function AfterUpdate(reg: Registry, tabId: int, newVolume: JsValue): Registry {
    WithGain(reg, tabId, Normalize(newVolume))
  }

  /** The `onMessage` listener: one message, handled as one atomic step. */
  function AfterMessage(reg: Registry, message: Message, stream: Option<nat>): Registry {
    match message
    case StartOffscreenAudio(streamId, tabId, initialVolume) =>
      var stopped := if tabId in reg.active then AfterStop(reg, tabId) else reg;
      AfterStartAudio(stopped, streamId, tabId, initialVolume, stream)
    case UpdateOffscreenVolume(tabId, newVolume) => AfterUpdate(reg, tabId, newVolume)
    case StopOffscreenAudio(tabId) => AfterStop(reg, tabId)
    case _ => reg
  }

  /** The registry of tabs other than `tabId` is the same in `a` and `b`. */
  ghost predicate SameOtherTabs(a: map<int, Session>, b: map<int, Session>, tabId: int) {
    forall u | u != tabId :: (u in a <==> u in b) && (u in a ==> a[u] == b[u])
  }

  /**
   * START for a tab: an earlier session of that tab is torn down and kept in
   * `released` (not orphaned); afterwards the tab has the new session exactly
   * when the stream was obtained, with gain `initialVolume` as sent, unclamped;
   * other tabs are untouched.
   */
  lemma StartReplacesSession(reg: Registry, streamId: string, tabId: int, initialVolume: int, stream: Option<nat>)
    ensures var r := AfterMessage(reg, StartOffscreenAudio(streamId, tabId, initialVolume), stream);
      && r.released == reg.released + (if tabId in reg.active then [TearDown(reg.active[tabId])] else [])
      && (tabId in r.active <==> stream.Some?)
      && (stream.Some? ==> r.active[tabId] == NewSession(streamId, stream.value, initialVolume)
                           && r.active[tabId].gainPercent == initialVolume)
      && SameOtherTabs(r.active, reg.active, tabId)
  {
  }

  /** When `getUserMedia` rejects, `startAudio` registers nothing and changes nothing. */
  lemma StartAudioFailureKeepsRegistry(reg: Registry, streamId: string, tabId: int, initialVolume: int)
    ensures AfterStartAudio(reg, streamId, tabId, initialVolume, None) == reg
  {
  }

  /** `updateVolume` on a tab without a session leaves the whole registry alone. */
  lemma UpdateAbsentIsNoop(reg: Registry, tabId: int, newVolume: JsValue)
    requires tabId !in reg.active
    ensures AfterUpdate(reg, tabId, newVolume) == reg
  {
  }

  /**
   * `updateVolume` on a live tab sets its gain to the cleaned volume, in
   * [0, 500] and 100 for a non-numeric input, and changes nothing else.
   */
  lemma UpdateSetsCleanedGain(reg: Registry, tabId: int, newVolume: JsValue)
    requires tabId in reg.active
    ensures var r := AfterUpdate(reg, tabId, newVolume);
      && tabId in r.active
      && r.active[tabId].gainPercent == Normalize(newVolume)
      && InRange(r.active[tabId].gainPercent)
      && (ParseInt(newVolume).None? ==> r.active[tabId].gainPercent == DefaultVolume)
      && r.active[tabId] == reg.active[tabId].(gainPercent := Normalize(newVolume))
      && SameOtherTabs(r.active, reg.active, tabId)
      && r.released == reg.released
  {
  }

  /** Two updates of one tab in a row leave the second value: last write wins. */
  lemma UpdateLastWriteWins(reg: Registry, tabId: int, first: JsValue, second: JsValue)
    ensures AfterUpdate(AfterUpdate(reg, tabId, first), tabId, second) == AfterUpdate(reg, tabId, second)
  {
    WithGainLastWriteWins(reg, tabId, Normalize(first), Normalize(second));
  }

  lemma WithGainLastWriteWins(reg: Registry, tabId: int, first: int, second: int)
    ensures WithGain(WithGain(reg, tabId, first), tabId, second) == WithGain(reg, tabId, second)
  {
    if tabId in reg.active {
      var s := reg.active[tabId];
      var once := reg.active[tabId := s.(gainPercent := first)];
      assert once[tabId := once[tabId].(gainPercent := second)] == reg.active[tabId := s.(gainPercent := second)];
    }
  }

  /**
   * `stopAudio` removes the tab, keeps its session in `released` with every
   * track stopped and the context closed, and leaves other tabs alone.
   */
  lemma StopRemovesAndTearsDown(reg: Registry, tabId: int)
    ensures var r := AfterStop(reg, tabId);
      && tabId !in r.active
      && SameOtherTabs(r.active, reg.active, tabId)
      && (tabId in reg.active ==> r.released == reg.released + [TearDown(reg.active[tabId])]
                                  && TornDown(r.released[|r.released| - 1]))
      && (tabId !in reg.active ==> r == reg)
  {
  }

  /** Stopping a tab twice is the same as stopping it once. */
  lemma StopIdempotent(reg: Registry, tabId: int)
    ensures AfterStop(AfterStop(reg, tabId), tabId) == AfterStop(reg, tabId)
  {
  }

  /** Every message keeps the registry consistent. */
  lemma MessagePreservesConsistency(reg: Registry, message: Message, stream: Option<nat>)
    requires Consistent(reg)
    ensures Consistent(AfterMessage(reg, message, stream))
  {
  }

  /**
   * No session is ever lost: live plus released sessions grow by one exactly
   * when a START obtains its stream, and stay the same otherwise.
   */
  lemma {:induction false} SessionsConserved(reg: Registry, message: Message, stream: Option<nat>)
    ensures var r := AfterMessage(reg, message, stream);
      |r.active| + |r.released|
        == |reg.active| + |reg.released| + (if message.StartOffscreenAudio? && stream.Some? then 1 else 0)
  {
    match message
    case StartOffscreenAudio(streamId, tabId, initialVolume) =>
      StartConserves(reg, streamId, tabId, initialVolume, stream);
    case UpdateOffscreenVolume(tabId, newVolume) =>
      WithGainConserves(reg, tabId, Normalize(newVolume));
    case StopOffscreenAudio(tabId) =>
      StopConserves(reg, tabId);
    case _ =>
  }

  lemma StartConserves(reg: Registry, streamId: string, tabId: int, initialVolume: int, stream: Option<nat>)
    ensures var stopped := if tabId in reg.active then AfterStop(reg, tabId) else reg;
      var r := AfterStartAudio(stopped, streamId, tabId, initialVolume, stream);
      |r.active| + |r.released| == |reg.active| + |reg.released| + (if stream.Some? then 1 else 0)
  {
    var stopped := if tabId in reg.active then AfterStop(reg, tabId) else reg;
    StopConserves(reg, tabId);
    assert tabId !in stopped.active;
    if stream.Some? {
      var active := stopped.active[tabId := NewSession(streamId, stream.value, initialVolume)];
      assert active.Keys == stopped.active.Keys + {tabId};
    }
  }

  lemma WithGainConserves(reg: Registry, tabId: int, vol: int)
    ensures |WithGain(reg, tabId, vol).active| == |reg.active| && WithGain(reg, tabId, vol).released == reg.released
  {
    if tabId in reg.active {
      assert WithGain(reg, tabId, vol).active.Keys == reg.active.Keys;
    }
  }

  lemma StopConserves(reg: Registry, tabId: int)
    ensures |AfterStop(reg, tabId).active| + |AfterStop(reg, tabId).released| == |reg.active| + |reg.released|
  {
    if tabId in reg.active {
      assert (reg.active - {tabId}).Keys == reg.active.Keys - {tabId};
    }
  }

  /** `audio.stream.getTracks().forEach(track => track.stop())`. */
  method StopTracks(tracks: seq<TrackState>) returns (stopped: seq<TrackState>)
    ensures |stopped| == |tracks| && AllEnded(stopped)
  {
    stopped := tracks;
    for i := 0 to |tracks|
      invariant |stopped| == |tracks|
      invariant forall j :: 0 <= j < i ==> stopped[j] == Ended
    {
      stopped := stopped[i := Ended];
    }
  }

  /** The offscreen document's state: the module-level map `activeStreams`. */
  class AudioEngine {
    var activeStreams: map<int, Session>
    /** History of torn-down sessions; it exists only to state what teardown did. */
    ghost var released: seq<Session>

    ghost function State(): Registry
      reads this
    {
      Registry(activeStreams, released)
    }

    ghost predicate Valid()
      reads this
    {
      Consistent(State())
    }

    constructor ()
      ensures Valid() && State() == Registry(map[], [])
    {
      activeStreams := map[];
      released := [];
    }

    method StopAudio(tabId: int)
      requires Valid()
      modifies this
      ensures Valid() && State() == AfterStop(old(State()), tabId)
    {
      if tabId in activeStreams {
        var audio := activeStreams[tabId];
        var tracks := StopTracks(audio.tracks);
        assert tracks == seq(|audio.tracks|, _ => Ended);
        audio := audio.(tracks := tracks);
        audio := audio.(contextClosed := true);
        released := released + [audio];
        activeStreams := activeStreams - {tabId};
      }
    }

    method StartAudio(streamId: string, tabId: int, initialVolume: int, stream: Option<nat>)
      requires Valid()
      modifies this
      ensures Valid() && State() == AfterStartAudio(old(State()), streamId, tabId, initialVolume, stream)
    {
      if stream.None? {
        return;
      }
      var audio := Session(streamId, seq(stream.value, _ => Live), initialVolume, false);
      activeStreams := activeStreams[tabId := audio];
    }

    method UpdateVolume(tabId: int, newVolume: JsValue)
      requires Valid()
      modifies this
      ensures Valid() && State() == AfterUpdate(old(State()), tabId, newVolume)
    {
      if tabId in activeStreams {
        var vol := Normalize(newVolume);
        activeStreams := activeStreams[tabId := activeStreams[tabId].(gainPercent := vol)];
      }
    }

    /** The `chrome.runtime.onMessage` listener. */
    method HandleMessage(message: Message, stream: Option<nat>)
      requires Valid()
      modifies this
      ensures Valid() && State() == AfterMessage(old(State()), message, stream)
    {
      match message
      case StartOffscreenAudio(streamId, tabId, initialVolume) =>
        if tabId in activeStreams {
          StopAudio(tabId);
        }
        StartAudio(streamId, tabId, initialVolume, stream);
      case UpdateOffscreenVolume(tabId, newVolume) =>
        UpdateVolume(tabId, newVolume);
      case StopOffscreenAudio(tabId) =>
        StopAudio(tabId);
      case _ =>
    }
  }
}
