/** What each callback and each reply of frontend/src/console/useRealtimeSession.ts does to the
    controls, and exactly when it does nothing. */
module ManualControls {
  import opened Options
  import opened ManualTurn

  /** The media client has a session, the control socket is ready, and both are this identity's. */
  predicate Usable(s: State) {
    s.line.mediaUp && s.line.controlReady && s.sameIdentity
  }

  /** The current capture, of whatever epoch, is capturing, committing or discarding. */
  predicate InProgress(s: State) {
    s.current.Some? && s.current.value < |s.captures|
    && s.captures[s.current.value].state in {Capturing, Committing, Discarding}
  }

  predicate OfThisEpoch(s: State) {
    s.current.Some? && s.current.value < |s.captures| && s.captures[s.current.value].epoch == s.epoch
  }

  // ---- Calls ----------------------------------------------------------------------------------

  /** A capture begins, with the microphone open and the mute lifted, if and only if the latch
      is clear, no error forbids it, the connection is usable, the mode is manual and no
      capture of this epoch is in progress. Otherwise nothing changes. */
  lemma StartOpens(s: State, blocked: bool)
    ensures var t := Step(s, Start(blocked));
            if !s.latch && !blocked && Usable(s) && s.mode == Manual && !(OfThisEpoch(s) && InProgress(s))
            then t == s.(captures := s.captures + [Capture(s.epoch, Capturing, false, 0)],
                         current := Some(|s.captures|), shown := ShowCapturing, retryable := false, muted := false,
                         line := s.line.(microphone := true))
            else t == s
  {
  }

  /** In the terms of a user: the microphone is open, and what it hears belongs to a new capture. */
  lemma StartIsHeard(s: State)
    requires Usable(s) && s.mode == Manual && !s.latch && !InProgress(s)
    ensures var t := Step(s, Start(false));
            && t.line.microphone && !t.muted && t.current == Some(|s.captures|)
            && |t.captures| == |s.captures| + 1
            && t.captures[|s.captures|].state == Capturing && t.captures[|s.captures|].epoch == t.epoch
  {
    StartOpens(s, false);
  }

  /** The user's mute: lifting it is refused while latched; otherwise the track is open if and
      only if there is one, the mute is lifted and the mode is automatic. */
  lemma MuteDecides(s: State, value: bool)
    ensures var t := Step(s, SetMuted(value));
            if !value && s.latch then t == s
            else t == s.(muted := value,
                         line := s.line.(microphone := s.line.mediaUp && !value && s.mode == ServerVad))
  {
  }

  lemma StopDecides(s: State)
    ensures var t := Step(s, Stop);
            if s.mode == Manual then t == s.(line := s.line.(microphone := false)) else t == s
  {
  }

  /** A mode request is sent if and only if the connection is usable, the mode is another one,
      the latch is clear, no capture is in progress and no mode request is pending; one for
      manual mode shuts the microphone at once. */
  lemma ModeRequestDecides(s: State, mode: Mode, id: nat)
    requires id !in s.outstanding
    ensures var t := Step(s, SetMode(mode, id));
            if Usable(s) && mode != s.mode && !s.latch && !InProgress(s) && s.modeRequest.None?
            then t == s.(modeRequest := Some(id), outstanding := s.outstanding[id := ModeRequest(s.epoch, mode)],
                         line := s.line.(microphone := s.line.microphone && mode == ServerVad))
            else t == s
  {
  }

  /** A commit or discard is sent, with the microphone shut, if and only if the connection is
      usable, the mode is manual and the capture of this epoch has not been concluded. */
  lemma ConcludeDecides(s: State, id: nat, discard: bool)
    requires id !in s.outstanding
    ensures var t := Step(s, if discard then Discard(id) else Commit(id));
            if Usable(s) && s.mode == Manual && OfThisEpoch(s) && !s.captures[s.current.value].promised
            then var c := s.current.value;
                 && t.captures == s.captures[c := Capture(s.epoch, if discard then Discarding else Committing, true,
                                                          s.captures[c].messages + 1)]
                 && t == s.(captures := t.captures, line := s.line.(microphone := false), retryable := false,
                            shown := if discard then ShowDiscarding else ShowCommitting,
                            outstanding := s.outstanding[id := if discard then DiscardRequest(s.epoch, c)
                                                               else CommitRequest(s.epoch, c)])
            else t == s
  {
  }

  // ---- Replies --------------------------------------------------------------------------------

  /** The reply is of this epoch, this identity and this session. */
  predicate InTime(s: State, epoch: nat, sameSession: bool) {
    s.epoch == epoch && s.sameIdentity && s.line.mediaUp && sameSession
  }

  /** The reply to a mode request has been taken: it is no longer outstanding, or pending. */
  function Taken(s: State, id: nat): State {
    s.(outstanding := s.outstanding - {id}, modeRequest := if s.modeRequest == Some(id) then None else s.modeRequest)
  }

  /** A granted mode change in time sets the mode, without a capture or a latch, and opens the
      track for automatic mode unless the user has muted. */
  lemma ModeGrantDecides(s: State, id: nat, sameSession: bool)
    requires id in s.outstanding && s.outstanding[id].ModeRequest?
    requires InTime(s, s.outstanding[id].epoch, sameSession)
    ensures Step(s, Reply(id, Accepted, sameSession))
         == Taken(s, id).(mode := s.outstanding[id].mode, current := None, shown := ShowIdle, retryable := true,
                          latch := false,
                          line := s.line.(microphone := s.outstanding[id].mode == ServerVad && !s.muted))
  {
  }

  /** One that is refused, unconfirmed, lost or not in time leaves the mode, mutes and latches;
      one of another epoch does nothing. */
  lemma ModeLossDecides(s: State, id: nat, outcome: Outcome, sameSession: bool)
    requires id in s.outstanding && s.outstanding[id].ModeRequest?
    requires !(outcome == Accepted && InTime(s, s.outstanding[id].epoch, sameSession))
    ensures Step(s, Reply(id, outcome, sameSession)) ==
            if s.outstanding[id].epoch == s.epoch
            then Taken(s, id).(muted := true, latch := true, line := s.line.(microphone := false))
            else Taken(s, id)
  {
  }

  /** The reply for a capture has been taken, and the capture is in this state. */
  function Concluded(s: State, id: nat, state: CaptureState): State
    requires id in s.outstanding && !s.outstanding[id].ModeRequest? && s.outstanding[id].capture < |s.captures|
  {
    var c := s.outstanding[id].capture;
    s.(outstanding := s.outstanding - {id}, captures := s.captures[c := s.captures[c].(state := state)])
  }

  /** An error of this epoch is shown; unless it may be retried, it latches. */
  function Alarmed(s: State, ofThisEpoch: bool, retryable: bool): State {
    if ofThisEpoch then s.(shown := ShowError, retryable := retryable, latch := !retryable) else s
  }

  /** A commit that is accepted in time completes its capture and clears error and latch; the
      microphone, the mode, the mute and the current capture stay. */
  lemma CommitAcceptedDecides(s: State, id: nat, sameSession: bool)
    requires id in s.outstanding && s.outstanding[id].CommitRequest? && s.outstanding[id].capture < |s.captures|
    requires InTime(s, s.outstanding[id].epoch, sameSession)
    ensures Step(s, Reply(id, Accepted, sameSession))
         == Concluded(s, id, Complete).(shown := ShowIdle, retryable := true, latch := false)
  {
  }

  /** A refused commit fails its capture and may be tried again; an unconfirmed one may have
      been heard, so it completes its capture and latches. */
  lemma CommitRefusedDecides(s: State, id: nat, sameSession: bool)
    requires id in s.outstanding && s.outstanding[id].CommitRequest? && s.outstanding[id].capture < |s.captures|
    ensures Step(s, Reply(id, Refused, sameSession))
         == Alarmed(Concluded(s, id, CaptureState.Failed), s.outstanding[id].epoch == s.epoch, true)
    ensures Step(s, Reply(id, Unconfirmed, sameSession))
         == Alarmed(Concluded(s, id, Complete), s.outstanding[id].epoch == s.epoch, false)
  {
  }

  /** A commit whose reply is lost, or not in time, fails its capture if that is still being
      committed in this epoch, and latches. */
  lemma CommitLostDecides(s: State, id: nat, outcome: Outcome, sameSession: bool)
    requires id in s.outstanding && s.outstanding[id].CommitRequest? && s.outstanding[id].capture < |s.captures|
    requires outcome == Lost || (outcome == Accepted && !InTime(s, s.outstanding[id].epoch, sameSession))
    ensures var r := s.outstanding[id];
            var now := s.captures[r.capture].state;
            Step(s, Reply(id, outcome, sameSession))
            == Alarmed(Concluded(s, id, if r.epoch == s.epoch && now == Committing then CaptureState.Failed else now),
                       r.epoch == s.epoch, false)
  {
    assert s.captures[s.outstanding[id].capture := s.captures[s.outstanding[id].capture]] == s.captures;
  }

  /** A discard that is accepted in time completes its capture, drops it if it is current, and
      clears error and latch. */
  lemma DiscardAcceptedDecides(s: State, id: nat, sameSession: bool)
    requires id in s.outstanding && s.outstanding[id].DiscardRequest? && s.outstanding[id].capture < |s.captures|
    requires InTime(s, s.outstanding[id].epoch, sameSession)
    ensures Step(s, Reply(id, Accepted, sameSession))
         == Concluded(s, id, Complete).(shown := ShowIdle, retryable := true, latch := false,
              current := if s.current == Some(s.outstanding[id].capture) then None else s.current)
  {
  }

  /** Any other discard latches: refused it fails its capture, unconfirmed it completes it, and
      lost or not in time it leaves it. */
  lemma DiscardLostDecides(s: State, id: nat, outcome: Outcome, sameSession: bool)
    requires id in s.outstanding && s.outstanding[id].DiscardRequest? && s.outstanding[id].capture < |s.captures|
    requires !(outcome == Accepted && InTime(s, s.outstanding[id].epoch, sameSession))
    ensures var r := s.outstanding[id];
            var state := if outcome == Refused then CaptureState.Failed
                         else if outcome == Unconfirmed then Complete else s.captures[r.capture].state;
            Step(s, Reply(id, outcome, sameSession)) == Alarmed(Concluded(s, id, state), r.epoch == s.epoch, false)
  {
    assert s.captures[s.outstanding[id].capture := s.captures[s.outstanding[id].capture]] == s.captures;
  }

  /** A reply that nobody waits for does nothing. */
  lemma UnknownReplyIsInert(s: State, id: nat, outcome: Outcome, sameSession: bool)
    requires id !in s.outstanding
    ensures Step(s, Reply(id, outcome, sameSession)) == s
  {
  }

  // ---- The connection -------------------------------------------------------------------------

  /** The end of a connection: a new epoch, and no media, control, capture, mode request or latch
      of the old one. Mode and mute stay, and so do the replies that are still to come. */
  lemma TeardownDecides(s: State)
    ensures var t := Step(s, Teardown);
            && t.line == Line(false, false, false, false, false)
            && t == s.(epoch := s.epoch + 1, modeRequest := None, current := None, latch := false, shown := ShowIdle,
                       retryable := true, line := t.line)
    ensures Step(s, Connect)
         == Step(s, Teardown).(line := Line(true, false, false, false, false), sameIdentity := true)
  {
  }

  /** A new identity starts in automatic mode, in a new epoch, without a latch or a capture. */
  lemma IdentityDecides(s: State)
    ensures Step(s, IdentityChanges)
         == s.(epoch := s.epoch + 1, mode := ServerVad, modeRequest := None, current := None, latch := false,
               sameIdentity := false)
  {
  }

  /** A connection that resolves leaves an open track open if and only if the mode is automatic
      and the user has not muted. */
  lemma ResolveDecides(s: State)
    ensures var t := Step(s, ConnectResolves);
            if s.line.connecting && s.line.mediaUp
            then t == s.(line := Line(false, true, true, s.line.microphone && s.mode == ServerVad && !s.muted,
                                      s.line.controlReady))
            else t == s
  {
  }

  /** A granted track is open; a failed connection keeps its media or loses everything; the
      control socket needs the media session. */
  lemma LineDecides(s: State, ready: bool)
    ensures Step(s, MediaGranted) ==
            if s.line.connecting && !s.line.mediaUp
            then s.(line := s.line.(mediaUp := true, microphone := true)) else s
    ensures Step(s, ConnectFails(false)) == if s.line.connecting then s.(line := s.line.(connecting := false)) else s
    ensures Step(s, ConnectFails(true)) ==
            if s.line.connecting then s.(line := Line(false, false, false, false, false)) else s
    ensures Step(s, ControlChanges(ready)) == s.(line := s.line.(controlReady := s.line.mediaUp && ready))
  {
  }
}
