/** Manual turn taking (frontend/src/console/useRealtimeSession.ts): microphone, turn
    mode, capture operation, recovery latch and epoch fence under late replies. Callbacks
    are those of the current render; every reply is its own step. */
module ManualTurn {
  import opened Options

  datatype Mode = ServerVad | Manual

  datatype CaptureState = Capturing | Committing | Discarding | Complete | Failed

  predicate Active(state: CaptureState) {
    state.Capturing? || state.Committing? || state.Discarding?
  }

  /** A capture object: the epoch it belongs to, whether its promise exists, and how many
      commit or discard messages were sent for it. */
  datatype Capture = Capture(epoch: nat, state: CaptureState, promised: bool, messages: nat)

  /** A control message whose reply is outstanding. */
  datatype Request =
    | ModeRequest(epoch: nat, mode: Mode)
    | CommitRequest(epoch: nat, capture: nat)
    | DiscardRequest(epoch: nat, capture: nat)

  datatype Shown = ShowIdle | ShowCapturing | ShowCommitting | ShowDiscarding | ShowError

  /** The connection: media client and control socket. */
  datatype Line = Line(
    connecting: bool,
    connected: bool,               // connect() has resolved
    mediaUp: bool,                 // there is a media client with a session
    microphone: bool,              // its audio track is enabled
    controlReady: bool)

  datatype State = State(
    epoch: nat,
    mode: Mode,
    modeRequest: Option<nat>,      // modeRequestRef
    captures: seq<Capture>,        // every capture object ever made
    current: Option<nat>,          // manualTurnRef
    latch: bool,                   // manualRecoveryRequiredRef
    muted: bool,                   // mutedRef
    shown: Shown,                  // manualCaptureState
    retryable: bool,
    outstanding: map<nat, Request>,
    line: Line,
    sameIdentity: bool)            // the connected signature is the current identity

  datatype Outcome = Accepted | Refused | Unconfirmed | Lost

  datatype Op =
    | Teardown
    | Connect
    | MediaGranted
    | ControlChanges(ready: bool)
    | ConnectResolves
    | ConnectFails(mediaLost: bool)
    | IdentityChanges
    | SetMuted(value: bool)
    | SetMode(mode: Mode, id: nat)
    | Start(blocked: bool)         // blocked: the rendered state shows an error that forbids it
    | Stop
    | Commit(id: nat)
    | Discard(id: nat)
    | Reply(id: nat, outcome: Outcome, sameSession: bool)

  const DOWN := Line(false, false, false, false, false)

  ghost const INITIAL := State(0, ServerVad, None, [], None, false, false, ShowIdle, true, map[], DOWN, false)

  /** requireControl() succeeds. */
  predicate Ready(s: State) {
    s.line.controlReady && s.line.mediaUp && s.sameIdentity
  }

  /** The current capture, when it belongs to this epoch. */
  predicate HasCapture(s: State) {
    s.current.Some? && s.current.value < |s.captures| && s.captures[s.current.value].epoch == s.epoch
  }

  predicate Busy(s: State) {
    s.current.Some? && s.current.value < |s.captures| && Active(s.captures[s.current.value].state)
  }

  function Microphone(s: State, on: bool): (r: State)
    ensures r.epoch == s.epoch && r.modeRequest == s.modeRequest && r.outstanding == s.outstanding
    ensures r.line == s.line.(microphone := r.line.microphone)
  {
    s.(line := s.line.(microphone := s.line.mediaUp && on))
  }

  function TornDown(s: State): State {
    s.(epoch := s.epoch + 1, modeRequest := None, current := None, latch := false,
       shown := ShowIdle, retryable := true, line := DOWN)
  }

  function Started(s: State): State {
    s.(captures := s.captures + [Capture(s.epoch, Capturing, false, 0)], current := Some(|s.captures|),
       shown := ShowCapturing, retryable := false, muted := false, line := s.line.(microphone := true))
  }

  /** Send the commit or discard of the current capture; the promise is kept on it. */
  function Concluded(s: State, id: nat, discard: bool): State
    requires HasCapture(s)
  {
    var c := s.current.value;
    var capture := s.captures[c];
    if capture.promised then s
    else
      s.(line := s.line.(microphone := false),
         captures := s.captures[c := capture.(state := if discard then Discarding else Committing,
                                              promised := true, messages := capture.messages + 1)],
         shown := if discard then ShowDiscarding else ShowCommitting,
         retryable := false,
         outstanding := s.outstanding[id := if discard then DiscardRequest(s.epoch, c) else CommitRequest(s.epoch, c)])
  }

  predicate SameCall(s: State, epoch: nat, sameSession: bool) {
    s.epoch == epoch && s.sameIdentity && s.line.mediaUp && sameSession
  }

  function WithState(s: State, c: nat, state: CaptureState): (r: State)
    ensures r.epoch == s.epoch && r.modeRequest == s.modeRequest && r.outstanding == s.outstanding && r.line == s.line
  {
    if c < |s.captures| then s.(captures := s.captures[c := s.captures[c].(state := state)]) else s
  }

  function Recovered(s: State): (r: State)
    ensures r.epoch == s.epoch && r.modeRequest == s.modeRequest && r.outstanding == s.outstanding && r.line == s.line
  {
    s.(shown := ShowIdle, retryable := true, latch := false)
  }

  function Cleared(s: State, c: nat): (r: State)
    ensures r.epoch == s.epoch && r.modeRequest == s.modeRequest && r.outstanding == s.outstanding && r.line == s.line
  {
    s.(current := if s.current == Some(c) then None else s.current)
  }

  /** The new mode starts without a capture and with the track as mode and mute say. */
  function Adopted(s: State, mode: Mode): (r: State)
    ensures r.epoch == s.epoch && r.modeRequest == s.modeRequest && r.outstanding == s.outstanding
    ensures r.line == s.line.(microphone := r.line.microphone)
  {
    Microphone(s.(mode := mode, current := None, shown := ShowIdle, retryable := true, latch := false),
               !mode.Manual? && !s.muted)
  }

  function ModeLost(s: State): (r: State)
    ensures r.epoch == s.epoch && r.modeRequest == s.modeRequest && r.outstanding == s.outstanding
    ensures r.line == s.line.(microphone := false)
  {
    Microphone(s.(muted := true, latch := true), false)
  }

  function ModeReplied(s: State, epoch: nat, mode: Mode, outcome: Outcome, sameSession: bool): (r: State)
    ensures r.epoch == s.epoch && r.modeRequest == s.modeRequest && r.outstanding == s.outstanding
    ensures r.line == s.line.(microphone := r.line.microphone)
  {
    if outcome.Accepted? && SameCall(s, epoch, sameSession) then Adopted(s, mode)
    else if s.epoch == epoch then ModeLost(s)
    else s
  }

  function Errored(s: State, epoch: nat, retryable: bool): (r: State)
    ensures r.epoch == s.epoch && r.modeRequest == s.modeRequest && r.outstanding == s.outstanding && r.line == s.line
  {
    if s.epoch == epoch then s.(shown := ShowError, retryable := retryable, latch := !retryable) else s
  }

  function CommitReplied(s: State, epoch: nat, c: nat, outcome: Outcome, sameSession: bool): (r: State)
    ensures r.epoch == s.epoch && r.modeRequest == s.modeRequest && r.outstanding == s.outstanding && r.line == s.line
  {
    match outcome
    case Refused => Errored(WithState(s, c, Failed), epoch, true)
    case Unconfirmed => Errored(WithState(s, c, Complete), epoch, false)
    case Accepted =>
      if SameCall(s, epoch, sameSession)
      then Recovered(WithState(s, c, Complete))
      else CommitLost(s, epoch, c)
    case Lost => CommitLost(s, epoch, c)
  }

  function CommitLost(s: State, epoch: nat, c: nat): (r: State)
    ensures r.epoch == s.epoch && r.modeRequest == s.modeRequest && r.outstanding == s.outstanding && r.line == s.line
  {
    Errored(if s.epoch == epoch && c < |s.captures| && s.captures[c].state.Committing?
            then WithState(s, c, Failed) else s, epoch, false)
  }

  function DiscardReplied(s: State, epoch: nat, c: nat, outcome: Outcome, sameSession: bool): (r: State)
    ensures r.epoch == s.epoch && r.modeRequest == s.modeRequest && r.outstanding == s.outstanding && r.line == s.line
  {
    match outcome
    case Refused => Errored(WithState(s, c, Failed), epoch, false)
    case Unconfirmed => Errored(WithState(s, c, Complete), epoch, false)
    case Accepted =>
      if SameCall(s, epoch, sameSession)
      then Recovered(Cleared(WithState(s, c, Complete), c))
      else Errored(s, epoch, false)
    case Lost => Errored(s, epoch, false)
  }

  function Settled(s: State, id: nat): State {
    s.(outstanding := s.outstanding - {id})
  }

  /** The finally handler of a turn-mode request. */
  function Finished(s: State, id: nat): State {
    s.(modeRequest := if s.modeRequest == Some(id) then None else s.modeRequest)
  }

  function Replied(s: State, id: nat, outcome: Outcome, sameSession: bool): State
    requires id in s.outstanding
  {
    var t := Settled(s, id);
    match s.outstanding[id]
    case ModeRequest(epoch, mode) =>
      Finished(ModeReplied(t, epoch, mode, outcome, sameSession), id)
    case CommitRequest(epoch, c) => CommitReplied(t, epoch, c, outcome, sameSession)
    case DiscardRequest(epoch, c) => DiscardReplied(t, epoch, c, outcome, sameSession)
  }

  /** getUserMedia hands over an enabled track. */
  function Granted(line: Line): Line {
    if line.connecting && !line.mediaUp then line.(mediaUp := true, microphone := true) else line
  }

  /** connect() resolves, and only then mutes for manual mode or the user's mute. */
  function Resolved(line: Line, mute: bool): Line {
    if line.connecting && line.mediaUp
    then line.(connecting := false, connected := true, microphone := line.microphone && !mute) else line
  }

  function FailedLine(line: Line, mediaLost: bool): Line {
    if !line.connecting then line
    else if mediaLost then DOWN
    else line.(connecting := false)
  }

  function Step(s: State, op: Op): State {
    match op
    case Teardown => TornDown(s)
    case Connect => TornDown(s).(line := DOWN.(connecting := true), sameIdentity := true)
    case MediaGranted => s.(line := Granted(s.line))
    case ControlChanges(ready) => s.(line := s.line.(controlReady := s.line.mediaUp && ready))
    case ConnectResolves => s.(line := Resolved(s.line, s.mode.Manual? || s.muted))
    case ConnectFails(mediaLost) => s.(line := FailedLine(s.line, mediaLost))
    case IdentityChanges =>
      s.(epoch := s.epoch + 1, mode := ServerVad, modeRequest := None, current := None, latch := false,
         sameIdentity := false)
    case SetMuted(value) =>
      if !value && s.latch then s
      else Microphone(s.(muted := value), !value && !s.mode.Manual?)
    case SetMode(mode, id) =>
      if !Ready(s) || mode == s.mode || s.latch || Busy(s) || s.modeRequest.Some? || id in s.outstanding then s
      else
        s.(line := s.line.(microphone := s.line.microphone && !mode.Manual?), modeRequest := Some(id),
           outstanding := s.outstanding[id := ModeRequest(s.epoch, mode)])
    case Start(blocked) =>
      if s.latch || blocked || !Ready(s) || !s.mode.Manual? || (HasCapture(s) && Busy(s)) then s
      else Started(s)
    case Stop => if s.mode.Manual? then Microphone(s, false) else s
    case Commit(id) =>
      if !Ready(s) || !s.mode.Manual? || !HasCapture(s) || id in s.outstanding then s else Concluded(s, id, false)
    case Discard(id) =>
      if !Ready(s) || !s.mode.Manual? || !HasCapture(s) || id in s.outstanding then s else Concluded(s, id, true)
    case Reply(id, outcome, sameSession) =>
      if id !in s.outstanding then s else Replied(s, id, outcome, sameSession)
  }

  function Run(s: State, ops: seq<Op>): State {
    if ops == [] then s else Step(Run(s, ops[..|ops| - 1]), ops[|ops| - 1])
  }

  // ---- Captures -------------------------------------------------------------------------

  /** One message for a capture that has concluded, none for one that is still capturing. */
  ghost predicate CaptureSound(c: Capture, epoch: nat) {
    && c.epoch <= epoch
    && c.messages == (if c.promised then 1 else 0)
    && (c.promised <==> !c.state.Capturing?)
  }

  ghost predicate CapturesSound(s: State) {
    && (forall c :: 0 <= c < |s.captures| ==> CaptureSound(s.captures[c], s.epoch))
    && (s.current.Some? ==> s.current.value < |s.captures| && s.captures[s.current.value].epoch == s.epoch)
  }

  /** Outstanding requests belong to past epochs or this one, and name a concluded capture;
      at most one turn-mode request of this epoch is outstanding. */
  ghost predicate RequestSound(s: State, id: nat, r: Request) {
    && r.epoch <= s.epoch
    && (r.ModeRequest? && r.epoch == s.epoch ==> s.modeRequest == Some(id))
    && (!r.ModeRequest? ==>
          r.capture < |s.captures| && s.captures[r.capture].promised && s.captures[r.capture].epoch == r.epoch)
  }

  function Other(mode: Mode): Mode { if mode.Manual? then ServerVad else Manual }

  ghost predicate RequestsSound(s: State) {
    && (forall id :: id in s.outstanding ==> RequestSound(s, id, s.outstanding[id]))
    && (s.modeRequest.Some? ==>
          && s.modeRequest.value in s.outstanding
          && s.outstanding[s.modeRequest.value] == ModeRequest(s.epoch, Other(s.mode)))
  }

  /** After connect() has resolved, an open microphone in manual mode means the current
      capture is capturing. */
  ghost predicate MicrophoneHonest(s: State) {
    && (s.line.microphone ==> s.line.mediaUp) && !(s.line.connecting && s.line.connected)
    && (s.line.connected && s.mode.Manual? && s.line.microphone ==>
          s.current.Some? && s.current.value < |s.captures| && s.captures[s.current.value].state.Capturing?)
  }

  ghost predicate Sound(s: State) {
    CapturesSound(s) && RequestsSound(s) && MicrophoneHonest(s)
  }

  lemma CallStaysSound(s: State, op: Op)
    requires Sound(s) && (op.Start? || op.SetMode? || op.SetMuted? || op.Stop?)
    ensures Sound(Step(s, op))
  {
  }

  lemma ConcludeStaysSound(s: State, op: Op)
    requires Sound(s) && (op.Commit? || op.Discard?)
    ensures Sound(Step(s, op))
  {
  }

  /** The fields Sound looks at. */
  ghost predicate SameCore(s: State, t: State) {
    && t.epoch == s.epoch && t.mode == s.mode && t.modeRequest == s.modeRequest
    && t.captures == s.captures && t.current == s.current && t.outstanding == s.outstanding
    && t.line == s.line
  }

  lemma CoreSound(s: State, t: State)
    requires Sound(s) && SameCore(s, t)
    ensures Sound(t)
  {
  }

  lemma TornDownIsSound(s: State)
    requires Sound(s)
    ensures Sound(TornDown(s))
  {
  }

  lemma ConnectStaysSound(s: State)
    requires Sound(s)
    ensures Sound(Step(s, Connect))
  {
    TornDownIsSound(s);
  }

  lemma IdentityStaysSound(s: State)
    requires Sound(s)
    ensures Sound(Step(s, IdentityChanges))
  {
  }

  lemma LineStaysSound(s: State, line: Line)
    requires Sound(s) && MicrophoneHonest(s.(line := line))
    ensures Sound(s.(line := line))
  {
  }

  lemma MediaStaysSound(s: State, op: Op)
    requires Sound(s) && (op.MediaGranted? || op.ControlChanges? || op.ConnectResolves? || op.ConnectFails?)
    ensures Sound(Step(s, op))
  {
    LineStaysSound(s, Step(s, op).line);
  }

  lemma SettledStaysSound(s: State, id: nat)
    requires Sound(s) && s.modeRequest != Some(id)
    ensures Sound(Settled(s, id))
  {
  }

  lemma WithStateStaysSound(s: State, c: nat, state: CaptureState)
    requires Sound(s) && !state.Capturing?
    requires c < |s.captures| ==> s.captures[c].promised
    ensures Sound(WithState(s, c, state))
  {
  }

  lemma ErroredStaysSound(s: State, epoch: nat, retryable: bool)
    requires Sound(s)
    ensures Sound(Errored(s, epoch, retryable))
  {
    CoreSound(s, Errored(s, epoch, retryable));
  }

  lemma RecoveredIsSound(s: State)
    requires Sound(s)
    ensures Sound(Recovered(s))
  {
    CoreSound(s, Recovered(s));
  }

  lemma CommitStaysSound(s: State, epoch: nat, c: nat, outcome: Outcome, sameSession: bool)
    requires Sound(s) && c < |s.captures| && s.captures[c].promised
    ensures Sound(CommitReplied(s, epoch, c, outcome, sameSession))
  {
    var failed, complete := WithState(s, c, Failed), WithState(s, c, Complete);
    WithStateStaysSound(s, c, Failed);
    WithStateStaysSound(s, c, Complete);
    match outcome
    case Refused => ErroredStaysSound(failed, epoch, true);
    case Unconfirmed => ErroredStaysSound(complete, epoch, false);
    case Accepted =>
      if SameCall(s, epoch, sameSession) {
        RecoveredIsSound(complete);
      } else {
        ErroredStaysSound(s, epoch, false);
        ErroredStaysSound(failed, epoch, false);
      }
    case Lost =>
      ErroredStaysSound(s, epoch, false);
      ErroredStaysSound(failed, epoch, false);
  }

  lemma ClearedStaysSound(s: State, c: nat)
    requires Sound(s) && c < |s.captures| && s.captures[c].promised
    ensures Sound(Cleared(s, c))
  {
  }

  lemma DiscardedStaysSound(s: State, epoch: nat, c: nat, sameSession: bool)
    requires Sound(s) && c < |s.captures| && s.captures[c].promised
    ensures Sound(DiscardReplied(s, epoch, c, Accepted, sameSession))
  {
    if SameCall(s, epoch, sameSession) {
      var complete := WithState(s, c, Complete);
      WithStateStaysSound(s, c, Complete);
      ClearedStaysSound(complete, c);
      RecoveredIsSound(Cleared(complete, c));
    } else {
      ErroredStaysSound(s, epoch, false);
    }
  }

  lemma DiscardStaysSound(s: State, epoch: nat, c: nat, outcome: Outcome, sameSession: bool)
    requires Sound(s) && c < |s.captures| && s.captures[c].promised
    ensures Sound(DiscardReplied(s, epoch, c, outcome, sameSession))
  {
    match outcome
    case Refused =>
      WithStateStaysSound(s, c, Failed);
      ErroredStaysSound(WithState(s, c, Failed), epoch, false);
    case Unconfirmed =>
      WithStateStaysSound(s, c, Complete);
      ErroredStaysSound(WithState(s, c, Complete), epoch, false);
    case Accepted => DiscardedStaysSound(s, epoch, c, sameSession);
    case Lost => ErroredStaysSound(s, epoch, false);
  }

  lemma ModeStaysSound(s: State, id: nat, outcome: Outcome, sameSession: bool)
    requires Sound(s) && id in s.outstanding && s.outstanding[id].ModeRequest?
    ensures Sound(Replied(s, id, outcome, sameSession))
  {
  }

  lemma CommitReplyStaysSound(s: State, id: nat, outcome: Outcome, sameSession: bool)
    requires Sound(s) && id in s.outstanding && s.outstanding[id].CommitRequest?
    ensures Sound(Replied(s, id, outcome, sameSession))
  {
    var r := s.outstanding[id];
    assert RequestSound(s, id, r);
    SettledStaysSound(s, id);
    CommitStaysSound(Settled(s, id), r.epoch, r.capture, outcome, sameSession);
  }

  lemma DiscardReplyStaysSound(s: State, id: nat, outcome: Outcome, sameSession: bool)
    requires Sound(s) && id in s.outstanding && s.outstanding[id].DiscardRequest?
    ensures Sound(Replied(s, id, outcome, sameSession))
  {
    var r := s.outstanding[id];
    assert RequestSound(s, id, r);
    SettledStaysSound(s, id);
    DiscardStaysSound(Settled(s, id), r.epoch, r.capture, outcome, sameSession);
  }

  lemma ReplyStaysSound(s: State, id: nat, outcome: Outcome, sameSession: bool)
    requires Sound(s) && id in s.outstanding
    ensures Sound(Replied(s, id, outcome, sameSession))
  {
    match s.outstanding[id]
    case ModeRequest(_, _) => ModeStaysSound(s, id, outcome, sameSession);
    case CommitRequest(_, _) => CommitReplyStaysSound(s, id, outcome, sameSession);
    case DiscardRequest(_, _) => DiscardReplyStaysSound(s, id, outcome, sameSession);
  }

  lemma StepStaysSound(s: State, op: Op)
    requires Sound(s)
    ensures Sound(Step(s, op))
  {
    match op
    case Reply(id, outcome, sameSession) =>
      if id in s.outstanding { ReplyStaysSound(s, id, outcome, sameSession); }
    case Commit(_) => ConcludeStaysSound(s, op);
    case Discard(_) => ConcludeStaysSound(s, op);
    case Start(_) => CallStaysSound(s, op);
    case SetMode(_, _) => CallStaysSound(s, op);
    case SetMuted(_) => CallStaysSound(s, op);
    case Stop => CallStaysSound(s, op);
    case Teardown => TornDownIsSound(s);
    case Connect => ConnectStaysSound(s);
    case IdentityChanges => IdentityStaysSound(s);
    case _ => MediaStaysSound(s, op);
  }

  lemma {:induction false} SoundInEveryRun(ops: seq<Op>)
    ensures Sound(Run(INITIAL, ops))
  {
    if ops != [] {
      SoundInEveryRun(ops[..|ops| - 1]);
      StepStaysSound(Run(INITIAL, ops[..|ops| - 1]), ops[|ops| - 1]);
    }
  }

  /** Whatever the order of calls and late replies: after connect() has resolved, an open
      microphone in manual mode belongs to the current, capturing capture of this epoch;
      and no capture ever sends more than one commit or discard message in total. */
  lemma OpenMicrophoneIsCapturing(ops: seq<Op>, c: nat)
    ensures var s := Run(INITIAL, ops);
            && (s.line.connected && s.mode.Manual? && s.line.microphone ==>
                  HasCapture(s) && s.captures[s.current.value].state.Capturing?)
            && (c < |s.captures| ==> s.captures[c].messages <= 1)
  {
    SoundInEveryRun(ops);
    assert c < |Run(INITIAL, ops).captures| ==> CaptureSound(Run(INITIAL, ops).captures[c], Run(INITIAL, ops).epoch);
  }

  /** The promise holds from the moment connect() resolves, not before: after a reconnect in
      manual mode whose control connection fails first and is then re-established, the
      controls work and the microphone is open although nothing is being captured. */
  lemma OpenBeforeConnectResolves(s: State)
    requires s.mode.Manual?
    ensures var t := Step(Step(Step(Step(s, Connect), MediaGranted), ConnectFails(false)), ControlChanges(true));
            Ready(t) && t.mode.Manual? && t.line.microphone && t.current.None? && !t.line.connected
  {
  }

  /** In manual mode an open microphone belongs to a capture that is capturing, whether or
      not connect() has resolved. */
  predicate OpenOnlyToCapture(s: State) {
    s.mode.Manual? && s.line.microphone ==>
      s.current.Some? && s.current.value < |s.captures| && s.captures[s.current.value].state.Capturing?
  }

  /** And no track is about to be granted, open, in manual mode. */
  predicate Secured(s: State) {
    OpenOnlyToCapture(s) && (s.line.connecting && !s.line.mediaUp ==> !s.mode.Manual?)
  }

  lemma CallKeepsSecured(s: State, op: Op)
    requires Sound(s) && Secured(s)
    requires op.Start? || op.SetMuted? || op.Stop? || op.SetMode? || op.Commit? || op.Discard?
    ensures Secured(Step(s, op))
  {
  }

  lemma LineKeepsSecured(s: State, op: Op)
    requires Sound(s) && Secured(s)
    requires op.MediaGranted? || op.ControlChanges? || op.ConnectResolves? || op.ConnectFails?
    ensures Secured(Step(s, op))
  {
  }

  lemma EpochKeepsSecured(s: State, op: Op)
    requires Secured(s) && (op.Teardown? || op.IdentityChanges?)
    ensures Secured(Step(s, op))
  {
  }

  lemma ModeReplyKeepsSecured(s: State, id: nat, outcome: Outcome, sameSession: bool)
    requires Secured(s) && id in s.outstanding && s.outstanding[id].ModeRequest?
    ensures Secured(Replied(s, id, outcome, sameSession))
  {
  }

  /** The mode and capture k are as before, and k is current if it was. */
  ghost predicate Untouched(s: State, t: State, k: nat) {
    && t.mode == s.mode && |t.captures| == |s.captures|
    && (k < |s.captures| ==> t.captures[k] == s.captures[k])
    && (s.current == Some(k) ==> t.current == s.current)
  }

  lemma CommitUntouched(s: State, epoch: nat, c: nat, outcome: Outcome, sameSession: bool, k: nat)
    requires c != k
    ensures Untouched(s, CommitReplied(s, epoch, c, outcome, sameSession), k)
  {
    assert Untouched(s, WithState(s, c, Failed), k) && Untouched(s, WithState(s, c, Complete), k);
  }

  lemma DiscardUntouched(s: State, epoch: nat, c: nat, outcome: Outcome, sameSession: bool, k: nat)
    requires c != k
    ensures Untouched(s, DiscardReplied(s, epoch, c, outcome, sameSession), k)
  {
    assert Untouched(s, WithState(s, c, Failed), k) && Untouched(s, WithState(s, c, Complete), k);
    assert Untouched(s, Cleared(WithState(s, c, Complete), c), k);
  }

  /** The reply to one capture leaves every other capture, and the mode, alone. */
  lemma OtherCaptureUntouched(s: State, id: nat, outcome: Outcome, sameSession: bool, k: nat)
    requires id in s.outstanding && !s.outstanding[id].ModeRequest? && s.outstanding[id].capture != k
    ensures Untouched(s, Replied(s, id, outcome, sameSession), k)
  {
    var r := s.outstanding[id];
    if r.CommitRequest? {
      CommitUntouched(Settled(s, id), r.epoch, r.capture, outcome, sameSession, k);
    } else {
      DiscardUntouched(Settled(s, id), r.epoch, r.capture, outcome, sameSession, k);
    }
  }

  lemma CaptureReplyKeepsSecured(s: State, id: nat, outcome: Outcome, sameSession: bool)
    requires Sound(s) && Secured(s) && id in s.outstanding && !s.outstanding[id].ModeRequest?
    ensures Secured(Replied(s, id, outcome, sameSession))
  {
    var r := s.outstanding[id];
    assert RequestSound(s, id, r);
    CaptureReplyKeeps(s, id, outcome, sameSession);
    OtherCaptureUntouched(s, id, outcome, sameSession, |s.captures|);
    if s.mode.Manual? && s.line.microphone {
      assert CaptureSound(s.captures[s.current.value], s.epoch);
      assert CaptureSound(s.captures[r.capture], s.epoch);
      OtherCaptureUntouched(s, id, outcome, sameSession, s.current.value);
    }
  }

  lemma StepKeepsSecured(s: State, op: Op)
    requires Sound(s) && Secured(s) && !op.Connect?
    ensures Secured(Step(s, op))
  {
    match op
    case Reply(id, outcome, sameSession) =>
      if id in s.outstanding {
        if s.outstanding[id].ModeRequest? {
          ModeReplyKeepsSecured(s, id, outcome, sameSession);
        } else {
          CaptureReplyKeepsSecured(s, id, outcome, sameSession);
        }
      }
    case Teardown => EpochKeepsSecured(s, op);
    case IdentityChanges => EpochKeepsSecured(s, op);
    case MediaGranted => LineKeepsSecured(s, op);
    case ControlChanges(_) => LineKeepsSecured(s, op);
    case ConnectResolves => LineKeepsSecured(s, op);
    case ConnectFails(_) => LineKeepsSecured(s, op);
    case _ => CallKeepsSecured(s, op);
  }

  /** A continuation of one connection. */
  ghost predicate NoConnect(ops: seq<Op>) {
    forall i :: 0 <= i < |ops| ==> !ops[i].Connect?
  }

  lemma {:induction false} SecuredFromHere(s: State, ops: seq<Op>)
    requires Sound(s) && Secured(s) && NoConnect(ops)
    ensures Sound(Run(s, ops)) && Secured(Run(s, ops))
  {
    if ops != [] {
      var init, op := ops[..|ops| - 1], ops[|ops| - 1];
      SecuredFromHere(s, init);
      StepStaysSound(Run(s, init), op);
      StepKeepsSecured(Run(s, init), op);
    }
  }

  lemma RunSingle(s: State, op: Op)
    ensures Run(s, [op]) == Step(s, op)
  {
    assert [op][..0] == [] && Run(s, [op][..0]) == s;
  }

  /** A connection keeps the microphone shut outside captures in manual mode, from its very
      start and whatever follows on it, if and only if it is not opened in manual mode. */
  lemma ConnectSafeIff(s: State)
    requires Sound(s)
    ensures (forall ops :: NoConnect(ops) ==> OpenOnlyToCapture(Run(Step(s, Connect), ops)))
       <==> !s.mode.Manual?
  {
    var t := Step(s, Connect);
    if s.mode.Manual? {
      RunSingle(t, MediaGranted);
      assert NoConnect([MediaGranted]) && !OpenOnlyToCapture(Run(t, [MediaGranted]));
    } else {
      ConnectStaysSound(s);
      forall ops | NoConnect(ops)
        ensures OpenOnlyToCapture(Run(t, ops))
      {
        SecuredFromHere(t, ops);
      }
    }
  }

  /** What the user sees and the microphone does; capture objects are left out. */
  ghost predicate SameControls(s: State, t: State) {
    && t.epoch == s.epoch && t.mode == s.mode && t.modeRequest == s.modeRequest && t.current == s.current
    && t.latch == s.latch && t.muted == s.muted && t.shown == s.shown && t.retryable == s.retryable
    && t.line == s.line
    && (s.current.Some? && s.current.value < |s.captures| ==>
          s.current.value < |t.captures| && t.captures[s.current.value] == s.captures[s.current.value])
  }

  lemma StaleStateIsOther(s: State, c: nat, state: CaptureState)
    requires Sound(s) && c < |s.captures| && s.captures[c].epoch < s.epoch
    ensures SameControls(s, WithState(s, c, state))
  {
  }

  lemma StaleReplySame(s: State, id: nat, outcome: Outcome, sameSession: bool)
    requires Sound(s) && id in s.outstanding && s.outstanding[id].epoch != s.epoch
    ensures SameControls(s, Replied(s, id, outcome, sameSession))
    ensures Replied(s, id, outcome, sameSession).outstanding == s.outstanding - {id}
  {
    var r := s.outstanding[id];
    assert RequestSound(s, id, r);
    if !r.ModeRequest? {
      SettledStaysSound(s, id);
      StaleStateIsOther(Settled(s, id), r.capture, Failed);
      StaleStateIsOther(Settled(s, id), r.capture, Complete);
    }
  }

  /** A reply that belongs to an older epoch changes no turn mode, capture state, recovery
      latch or mute state. */
  lemma StaleReplyIsInert(ops: seq<Op>, id: nat, outcome: Outcome, sameSession: bool)
    requires id in Run(INITIAL, ops).outstanding
    requires Run(INITIAL, ops).outstanding[id].epoch < Run(INITIAL, ops).epoch
    ensures SameControls(Run(INITIAL, ops), Step(Run(INITIAL, ops), Reply(id, outcome, sameSession)))
  {
    SoundInEveryRun(ops);
    StaleReplySame(Run(INITIAL, ops), id, outcome, sameSession);
  }

  // ---- The recovery latch ------------------------------------------------------------------

  /** Outstanding in this epoch. */
  predicate Live(s: State, id: nat) {
    id in s.outstanding && s.outstanding[id].epoch == s.epoch
  }

  ghost predicate LatchSound(s: State) {
    && (s.latch ==> !s.line.microphone)
    && (forall a, b :: Live(s, a) && Live(s, b) ==> a == b)
    && (forall id :: Live(s, id) && !s.outstanding[id].ModeRequest? ==>
          s.mode.Manual? && !s.line.microphone && Busy(s) && s.current == Some(s.outstanding[id].capture))
    && (s.modeRequest.Some? ==> !Busy(s))
    && (s.line.connecting && !s.line.mediaUp ==> !s.latch && forall id :: !Live(s, id))
  }

  predicate LatchMutes(s: State) {
    s.latch ==> !s.line.microphone
  }

  predicate StartsWhilePending(s: State, op: Op) {
    op.Start? && s.modeRequest.Some?
  }

  /** No capture starts while a turn-mode request is pending. */
  ghost predicate Patient(s: State, ops: seq<Op>) {
    ops != [] ==> Patient(s, ops[..|ops| - 1]) && !StartsWhilePending(Run(s, ops[..|ops| - 1]), ops[|ops| - 1])
  }

  lemma LineKeepsLatch(s: State, op: Op)
    requires Sound(s) && LatchSound(s)
    requires op.MediaGranted? || op.ControlChanges? || op.ConnectResolves? || op.ConnectFails?
    ensures LatchSound(Step(s, op))
  {
    var t := Step(s, op);
    assert forall id :: Live(t, id) == Live(s, id);
  }

  lemma EpochKeepsLatch(s: State, op: Op)
    requires Sound(s) && LatchSound(s) && (op.Teardown? || op.Connect? || op.IdentityChanges?)
    ensures LatchSound(Step(s, op))
  {
    var t := Step(s, op);
    forall id
      ensures !Live(t, id)
    {
      assert id in s.outstanding ==> RequestSound(s, id, s.outstanding[id]);
    }
  }

  lemma CallKeepsLatch(s: State, op: Op)
    requires Sound(s) && LatchSound(s) && !StartsWhilePending(s, op)
    requires op.Start? || op.SetMuted? || op.Stop?
    ensures LatchSound(Step(s, op))
  {
    var t := Step(s, op);
    assert forall id :: Live(t, id) == Live(s, id);
    assert forall id :: Live(s, id) ==> RequestSound(s, id, s.outstanding[id]);
  }

  lemma SendKeepsLatch(s: State, op: Op)
    requires Sound(s) && LatchSound(s) && (op.SetMode? || op.Commit? || op.Discard?)
    ensures LatchSound(Step(s, op))
  {
    var t := Step(s, op);
    assert forall id :: Live(s, id) ==> RequestSound(s, id, s.outstanding[id]);
    assert forall id :: id != op.id ==> Live(t, id) == Live(s, id);
  }

  /** With nothing outstanding in this epoch, only the latch itself is left to check. */
  lemma QuietLatch(t: State)
    requires forall id :: !Live(t, id)
    requires (t.latch ==> !t.line.microphone) && t.modeRequest.None? && (t.line.connecting ==> t.line.mediaUp)
    ensures LatchSound(t)
  {
  }

  lemma ModeReplyKeeps(s: State, id: nat, outcome: Outcome, sameSession: bool)
    requires id in s.outstanding && s.outstanding[id].ModeRequest?
    ensures var t := Replied(s, id, outcome, sameSession);
            && t.epoch == s.epoch && t.outstanding == s.outstanding - {id}
            && t.modeRequest == (if s.modeRequest == Some(id) then None else s.modeRequest)
            && t.line == s.line.(microphone := t.line.microphone)
  {
  }

  lemma CaptureReplyKeeps(s: State, id: nat, outcome: Outcome, sameSession: bool)
    requires id in s.outstanding && !s.outstanding[id].ModeRequest?
    ensures var t := Replied(s, id, outcome, sameSession);
            && t.epoch == s.epoch && t.outstanding == s.outstanding - {id}
            && t.modeRequest == s.modeRequest && t.line == s.line
  {
  }

  lemma LiveReplyClears(s: State, t: State, id: nat)
    requires Sound(s) && LatchSound(s) && Live(s, id)
    requires t.epoch == s.epoch && t.outstanding == s.outstanding - {id}
    requires t.modeRequest == if s.outstanding[id].ModeRequest? && s.modeRequest == Some(id) then None else s.modeRequest
    ensures (forall x :: !Live(t, x)) && t.modeRequest.None?
  {
    assert forall x :: Live(t, x) ==> Live(s, x) && x != id;
    assert s.modeRequest.Some? ==> Live(s, s.modeRequest.value);
  }

  lemma LiveReplyMutes(s: State, id: nat, outcome: Outcome, sameSession: bool)
    requires LatchSound(s) && Live(s, id)
    ensures LatchMutes(Replied(s, id, outcome, sameSession))
  {
    if !s.outstanding[id].ModeRequest? {
      assert !s.line.microphone;
      CaptureReplyKeeps(s, id, outcome, sameSession);
    }
  }

  lemma StaleReplyKeepsLatch(s: State, t: State, id: nat)
    requires Sound(s) && LatchSound(s) && id in s.outstanding && !Live(s, id)
    requires SameControls(s, t) && t.outstanding == s.outstanding - {id}
    requires s.current.Some? ==> s.current.value < |s.captures| && s.current.value < |t.captures|
    ensures LatchSound(t)
  {
    assert forall x :: Live(t, x) == Live(s, x);
  }

  lemma ReplyKeepsLatch(s: State, id: nat, outcome: Outcome, sameSession: bool)
    requires Sound(s) && LatchSound(s) && id in s.outstanding
    ensures LatchSound(Replied(s, id, outcome, sameSession))
  {
    if Live(s, id) {
      if s.outstanding[id].ModeRequest? {
        ModeReplyKeeps(s, id, outcome, sameSession);
      } else {
        CaptureReplyKeeps(s, id, outcome, sameSession);
      }
      LiveReplyClears(s, Replied(s, id, outcome, sameSession), id);
      LiveReplyMutes(s, id, outcome, sameSession);
      QuietLatch(Replied(s, id, outcome, sameSession));
    } else {
      StaleReplySame(s, id, outcome, sameSession);
      StaleReplyKeepsLatch(s, Replied(s, id, outcome, sameSession), id);
    }
  }

  lemma StepKeepsLatch(s: State, op: Op)
    requires Sound(s) && LatchSound(s) && !StartsWhilePending(s, op)
    ensures LatchSound(Step(s, op))
  {
    match op
    case Teardown => EpochKeepsLatch(s, op);
    case Connect => EpochKeepsLatch(s, op);
    case IdentityChanges => EpochKeepsLatch(s, op);
    case SetMuted(_) => CallKeepsLatch(s, op);
    case Start(_) => CallKeepsLatch(s, op);
    case Stop => CallKeepsLatch(s, op);
    case SetMode(_, _) => SendKeepsLatch(s, op);
    case Commit(_) => SendKeepsLatch(s, op);
    case Discard(_) => SendKeepsLatch(s, op);
    case Reply(id, outcome, sameSession) =>
      if id in s.outstanding { ReplyKeepsLatch(s, id, outcome, sameSession); }
    case _ => LineKeepsLatch(s, op);
  }

  lemma {:induction false} LatchFromHere(s: State, ops: seq<Op>)
    requires Sound(s) && LatchSound(s) && Patient(s, ops)
    ensures Sound(Run(s, ops)) && LatchSound(Run(s, ops))
  {
    if ops != [] {
      var init, op := ops[..|ops| - 1], ops[|ops| - 1];
      LatchFromHere(s, init);
      StepStaysSound(Run(s, init), op);
      StepKeepsLatch(Run(s, init), op);
    }
  }

  /** In every run in which no capture starts while a turn-mode request is pending, a set
      recovery latch means the microphone is muted. */
  lemma LatchMeansMuted(ops: seq<Op>)
    requires Patient(INITIAL, ops)
    ensures Run(INITIAL, ops).latch ==> !Run(INITIAL, ops).line.microphone
  {
    LatchFromHere(INITIAL, ops);
  }

  /** What goes wrong otherwise: the capture is committed, the mode request is granted, which
      reopens the microphone, and then the commit's reply is lost. */
  lemma ImpatientStartUnmutes(s: State, m: nat)
    requires Sound(s) && Ready(s) && s.mode.Manual? && !s.latch && !Busy(s)
    requires s.modeRequest.Some? && m !in s.outstanding
    ensures var n := s.modeRequest.value;
            !LatchMutes(Step(Step(Step(Step(s, Start(false)), Commit(m)), Reply(n, Accepted, true)), Reply(m, Lost, true)))
  {
    var n := s.modeRequest.value;
    var t := Step(Step(s, Start(false)), Commit(m));
    assert s.outstanding[n] == ModeRequest(s.epoch, ServerVad);
    assert t.outstanding == s.outstanding[m := CommitRequest(s.epoch, |s.captures|)];
    assert !t.muted && t.captures[|s.captures|].state.Committing?;
    var u := Step(t, Reply(n, Accepted, true));
    assert u.line.microphone && u.epoch == s.epoch && u.outstanding[m] == CommitRequest(s.epoch, |s.captures|);
  }

  lemma RunThree(s: State, a: Op, b: Op, c: Op)
    requires !a.Start? && !b.Start? && !c.Start?
    ensures Run(s, [a, b, c]) == Step(Step(Step(s, a), b), c) && Patient(s, [a, b, c])
  {
    assert [a, b, c][..2] == [a, b] && [a, b][..1] == [a] && [a][..0] == [];
    assert Run(s, [a][..0]) == s && Patient(s, [a][..0]);
    assert Run(s, [a]) == Step(s, a) && Patient(s, [a]);
    assert Run(s, [a, b]) == Step(Step(s, a), b) && Patient(s, [a, b]);
  }

  /** Starting a capture in manual mode is safe for the latch exactly when no turn-mode
      request is pending. */
  lemma StartSafeIff(s: State, m: nat)
    requires Sound(s) && LatchSound(s) && Ready(s) && s.mode.Manual? && !s.latch && !Busy(s) && m !in s.outstanding
    ensures (forall ops :: Patient(Step(s, Start(false)), ops) ==> LatchMutes(Run(Step(s, Start(false)), ops)))
       <==> s.modeRequest.None?
  {
    var t := Step(s, Start(false));
    if s.modeRequest.None? {
      StepStaysSound(s, Start(false));
      StepKeepsLatch(s, Start(false));
      forall ops | Patient(t, ops)
        ensures LatchMutes(Run(t, ops))
      {
        LatchFromHere(t, ops);
      }
    } else {
      ImpatientStartUnmutes(s, m);
      RunThree(t, Commit(m), Reply(s.modeRequest.value, Accepted, true), Reply(m, Lost, true));
    }
  }
}
