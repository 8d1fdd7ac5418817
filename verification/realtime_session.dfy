/** The controller object behind ManualTurn: the refs, the media client's track and the
    control socket, changed in place by the callbacks of useRealtimeSession.ts. */
module RealtimeSession {
  import opened Options
  import opened ManualTurn

  class RealtimeSessionController {
    var operationEpoch: nat
    var turnMode: Mode
    var modeRequest: Option<nat>
    var captures: seq<Capture>
    var manualTurn: Option<nat>
    var recoveryRequired: bool
    var muted: bool
    var captureState: Shown
    var captureRetryable: bool
    var outstanding: map<nat, Request>
    var line: Line                 // the media client and the control socket
    var sameIdentity: bool

    ghost function View(): State
      reads this
    {
      State(operationEpoch, turnMode, modeRequest, captures, manualTurn, recoveryRequired, muted, captureState,
            captureRetryable, outstanding, line, sameIdentity)
    }

    constructor ()
      ensures View() == INITIAL
      ensures View() == State(0, ServerVad, None, [], None, false, false, ShowIdle, true, map[],
                              Line(false, false, false, false, false), false)
    {
      operationEpoch, turnMode, modeRequest := 0, ServerVad, None;
      captures, manualTurn, recoveryRequired, muted := [], None, false, false;
      captureState, captureRetryable, outstanding := ShowIdle, true, map[];
      line := DOWN;
      sameIdentity := false;
    }

    /** requireControl() does not throw. */
    predicate ControlReady()
      reads this
      ensures ControlReady() == Ready(View())
    {
      line.controlReady && line.mediaUp && sameIdentity
    }

    /** The operation of this epoch that commit and discard act on. */
    predicate HasOperation()
      reads this
      ensures HasOperation() == HasCapture(View())
    {
      manualTurn.Some? && manualTurn.value < |captures| && captures[manualTurn.value].epoch == operationEpoch
    }

    method MuteMedia(mute: bool)
      modifies `line
      ensures View() == Microphone(old(View()), !mute)
    {
      line := line.(microphone := line.mediaUp && !mute);
    }

    method Teardown()
      modifies this
      ensures View() == TornDown(old(View()))
    {
      operationEpoch := operationEpoch + 1;
      modeRequest, manualTurn := None, None;
      captureState, captureRetryable, recoveryRequired := ShowIdle, true, false;
      line := DOWN;
    }

    method Connect()
      modifies this
      ensures View() == Step(old(View()), Op.Connect)
    {
      Teardown();
      line, sameIdentity := line.(connecting := true), true;
    }

    /** The identity boundary, crossed while rendering. */
    method CrossIdentity()
      modifies this
      ensures View() == Step(old(View()), IdentityChanges)
    {
      operationEpoch := operationEpoch + 1;
      turnMode, modeRequest, manualTurn, recoveryRequired := ServerVad, None, None, false;
      sameIdentity := false;
    }

    /** The end of connect(): mute for manual mode or for the user's own mute. */
    method ResolveConnect()
      modifies this
      ensures View() == Step(old(View()), ConnectResolves)
    {
      if line.connecting && line.mediaUp {
        if turnMode.Manual? || muted {
          MuteMedia(true);
        }
        line := line.(connecting := false, connected := true);
      }
    }

    method SetMuted(value: bool)
      modifies this
      ensures View() == Step(old(View()), Op.SetMuted(value))
    {
      if !value && recoveryRequired {
        return;
      }
      muted := value;
      MuteMedia(value || turnMode.Manual?);
    }

    method SetManualTurnTaking(manual: bool, id: nat)
      requires id !in outstanding
      modifies this
      ensures View() == Step(old(View()), SetMode(if manual then Manual else ServerVad, id))
    {
      var mode := if manual then Manual else ServerVad;
      if !ControlReady() || manual == turnMode.Manual? || recoveryRequired {
        return;
      }
      if manualTurn.Some? && manualTurn.value < |captures| && Active(captures[manualTurn.value].state) {
        return;
      }
      if modeRequest.Some? {
        return;
      }
      if manual {
        MuteMedia(true);
      }
      outstanding := outstanding[id := ModeRequest(operationEpoch, mode)];
      modeRequest := Some(id);
    }

    method BeginCapture()
      requires line.mediaUp
      modifies this
      ensures View() == Started(old(View()))
    {
      manualTurn := Some(|captures|);
      captures := captures + [Capture(operationEpoch, Capturing, false, 0)];
      captureState, captureRetryable, muted := ShowCapturing, false, false;
      MuteMedia(false);
    }

    method StartManualTurn(blocked: bool)
      modifies this
      ensures View() == Step(old(View()), Start(blocked))
    {
      if recoveryRequired || blocked || !ControlReady() || !turnMode.Manual? {
        return;
      }
      if HasOperation() && Active(captures[manualTurn.value].state) {
        return;
      }
      BeginCapture();
    }

    method StopManualTurn()
      modifies this
      ensures View() == Step(old(View()), Stop)
    {
      if turnMode.Manual? {
        MuteMedia(true);
      }
    }

    /** Commit the current capture; a capture that already has a promise sends nothing. */
    method CommitManualTurn(id: nat) returns (sent: bool)
      requires id !in outstanding
      modifies this
      ensures View() == Step(old(View()), Commit(id))
      ensures sent == (id in outstanding)
    {
      sent := false;
      if !ControlReady() || !turnMode.Manual? || !HasOperation() {
        return;
      }
      var c := manualTurn.value;
      var operation := captures[c];
      if operation.promised {
        return;
      }
      MuteMedia(true);
      captureState, captureRetryable := ShowCommitting, false;
      outstanding := outstanding[id := CommitRequest(operationEpoch, c)];
      captures := captures[c := Capture(operation.epoch, Committing, true, operation.messages + 1)];
      sent := true;
    }

    method DiscardManualTurn(id: nat) returns (sent: bool)
      requires id !in outstanding
      modifies this
      ensures View() == Step(old(View()), Discard(id))
      ensures sent == (id in outstanding)
    {
      sent := false;
      if !ControlReady() || !turnMode.Manual? || !HasOperation() {
        return;
      }
      var c := manualTurn.value;
      var operation := captures[c];
      if operation.promised {
        return;
      }
      MuteMedia(true);
      captureState, captureRetryable := ShowDiscarding, false;
      outstanding := outstanding[id := DiscardRequest(operationEpoch, c)];
      captures := captures[c := Capture(operation.epoch, Discarding, true, operation.messages + 1)];
      sent := true;
    }

    /** The identity fence of every reply: same epoch, same signature, same session. */
    predicate Fenced(epoch: nat, sameSession: bool)
      reads this
      ensures Fenced(epoch, sameSession) == !SameCall(View(), epoch, sameSession)
    {
      operationEpoch != epoch || !sameIdentity || !line.mediaUp || !sameSession
    }

    method AdoptMode(mode: Mode)
      modifies this
      ensures View() == Adopted(old(View()), mode)
    {
      turnMode, manualTurn := mode, None;
      captureState, captureRetryable, recoveryRequired := ShowIdle, true, false;
      MuteMedia(mode.Manual? || muted);
    }

    /** A failed or ambiguous mode change: muted, and latched until recovery. */
    method LoseMode()
      modifies `muted, `line, `recoveryRequired
      ensures View() == ModeLost(old(View()))
    {
      muted := true;
      MuteMedia(true);
      recoveryRequired := true;
    }

    method SettleMode(epoch: nat, mode: Mode, outcome: Outcome, sameSession: bool)
      modifies this
      ensures View() == ModeReplied(old(View()), epoch, mode, outcome, sameSession)
    {
      if outcome.Accepted? && !Fenced(epoch, sameSession) {
        AdoptMode(mode);
      } else if operationEpoch == epoch {
        LoseMode();
      }
    }

    method TakeReply(id: nat)
      modifies `outstanding
      ensures View() == Settled(old(View()), id)
    {
      outstanding := outstanding - {id};
    }

    method FinishMode(id: nat)
      modifies `modeRequest
      ensures View() == Finished(old(View()), id)
    {
      if modeRequest == Some(id) {
        modeRequest := None;
      }
    }

    method OnModeReply(id: nat, outcome: Outcome, sameSession: bool)
      requires id in outstanding && outstanding[id].ModeRequest?
      modifies this
      ensures View() == Step(old(View()), Reply(id, outcome, sameSession))
    {
      var epoch, mode := outstanding[id].epoch, outstanding[id].mode;
      TakeReply(id);
      SettleMode(epoch, mode, outcome, sameSession);
      FinishMode(id);
    }

    method ClearOperation(c: nat)
      modifies `manualTurn
      ensures View() == Cleared(old(View()), c)
    {
      if manualTurn == Some(c) {
        manualTurn := None;
      }
    }

    method SetState(c: nat, state: CaptureState)
      modifies `captures
      ensures View() == WithState(old(View()), c, state)
    {
      if c < |captures| {
        captures := captures[c := captures[c].(state := state)];
      }
    }

    method Succeed()
      modifies `captureState, `captureRetryable, `recoveryRequired
      ensures View() == Recovered(old(View()))
    {
      captureState, captureRetryable, recoveryRequired := ShowIdle, true, false;
    }

    /** The catch handler: an error of this epoch is shown and, unless retryable, latched. */
    method Fail(epoch: nat, retryable: bool)
      modifies `captureState, `captureRetryable, `recoveryRequired
      ensures View() == Errored(old(View()), epoch, retryable)
    {
      if operationEpoch == epoch {
        captureState, captureRetryable, recoveryRequired := ShowError, retryable, !retryable;
      }
    }

    /** The then and catch handlers of a commit: a refusal may be retried, nothing else may. */
    method OnCommitReply(id: nat, outcome: Outcome, sameSession: bool)
      requires id in outstanding && outstanding[id].CommitRequest?
      modifies this
      ensures View() == Step(old(View()), Reply(id, outcome, sameSession))
    {
      var epoch, c := outstanding[id].epoch, outstanding[id].capture;
      TakeReply(id);
      if outcome.Refused? {
        SetState(c, Failed);
        Fail(epoch, true);
      } else if outcome.Unconfirmed? {
        SetState(c, Complete);
        Fail(epoch, false);
      } else if outcome.Accepted? && !Fenced(epoch, sameSession) {
        SetState(c, Complete);
        Succeed();
      } else {
        if operationEpoch == epoch && c < |captures| && captures[c].state.Committing? {
          SetState(c, Failed);
        }
        Fail(epoch, false);
      }
    }

    method OnDiscardReply(id: nat, outcome: Outcome, sameSession: bool)
      requires id in outstanding && outstanding[id].DiscardRequest?
      modifies this
      ensures View() == Step(old(View()), Reply(id, outcome, sameSession))
    {
      var epoch, c := outstanding[id].epoch, outstanding[id].capture;
      TakeReply(id);
      if outcome.Refused? {
        SetState(c, Failed);
        Fail(epoch, false);
      } else if outcome.Unconfirmed? {
        SetState(c, Complete);
        Fail(epoch, false);
      } else if outcome.Accepted? && !Fenced(epoch, sameSession) {
        SetState(c, Complete);
        ClearOperation(c);
        Succeed();
      } else {
        Fail(epoch, false);
      }
    }
  }
}
