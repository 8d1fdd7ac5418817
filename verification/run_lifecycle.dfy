/** The life of every run (backend/voice_console/run_coordinator.py over run_store.py):
    submission, event stream, reconciliation, approvals, stops, acknowledgements and
    restarts, one step for each stretch of code between two awaits. All that concerns
    one local turn id is kept in one cell. */
module RunLifecycle {
  import opened Options
  import opened RunStore

  datatype Kind =
    | AgentCompleted | AgentFailed | AgentStopped
    | ApprovalRequest | ApprovalResponded | ApprovalResolved
    | OtherKind

  predicate TerminalKind(kind: Kind) {
    kind.AgentCompleted? || kind.AgentFailed? || kind.AgentStopped?
  }

  function StatusOf(kind: Kind): Option<Status> {
    match kind
    case AgentCompleted => Some(Completed)
    case AgentFailed => Some(Failed)
    case AgentStopped => Some(Cancelled)
    case ApprovalRequest => Some(WaitingForApproval)
    case ApprovalResponded => Some(Running)
    case ApprovalResolved => Some(Running)
    case OtherKind => None
  }

  /** The background task of a run. */
  datatype Task = Consuming | Reconciling | Finished

  /** The in-memory ActiveRun: its copy of the row, and its task. */
  datatype Active = Active(record: Row, task: Task)

  datatype Phase = BeforePost | Posted

  datatype Cell = Cell(
    row: Option<Row>,
    active: Option<Active>,
    registered: bool,          // the coordinator can find the ActiveRun by run id
    starting: Option<Phase>,   // a start() call is between two awaits
    approving: nat,            // approve() calls that wait for Hermes
    stopping: nat,             // stop() calls that hold the ActiveRun and wait for Hermes
    used: bool,                // the local turn id has been generated
    posts: nat,                // POST /v1/runs requests made for it
    terminals: nat)            // terminal events emitted for it

  const BLANK := Cell(None, None, false, None, 0, 0, false, 0, 0)

  datatype State = State(cells: map<string, Cell>, now: nat)

  function Get(s: State, id: string): Cell {
    if id in s.cells then s.cells[id] else BLANK
  }

  /** What Hermes says about a run that is being reconciled. */
  datatype Reply =
    | Missing | SaysCompleted | SaysCancelled | SaysFailed | SaysWaiting | SaysOther | GivesUp

  datatype Op =
    | Start(id: string, target: string, conversation: string, owner: string)
    | Post(id: string)
    | StartFails(id: string)
    | StartAmbiguous(id: string)
    | StartAbandoned(id: string)
    | StartAccepted(id: string, runId: string)
    | StreamEvent(id: string, kind: Kind)
    | StreamEnds(id: string, lost: bool)
    | Reconcile(id: string, reply: Reply)
    | ApproveBegin(id: string, owner: string)
    | ApproveReply(id: string, ok: bool)
    | StopBegin(id: string, owner: string)
    | StopReply(id: string, ok: bool)
    | AckUnknown(id: string, owner: string)
    | AckUnrecoverable(id: string, owner: string)
    | Restart(retention: nat)
    | Tick

  function EmitChange(record: Row, kind: Kind): Change {
    Change(None,
           if Terminal(record.status) && !TerminalKind(kind) then None else StatusOf(kind),
           Some(record.lastSequence + 1), None, TerminalKind(kind))
  }

  /** _emit: number the event from the in-memory record, update the stored row, and take
      the row back as the new record. */
  function Emit(c: Cell, kind: Kind, now: nat): Cell
    requires c.row.Some? && c.active.Some?
  {
    var row := Apply(c.row.value, EmitChange(c.active.value.record, kind), now);
    c.(row := Some(row), active := Some(c.active.value.(record := row)),
       registered := c.registered && !TerminalKind(kind),
       terminals := c.terminals + (if TerminalKind(kind) then 1 else 0))
  }

  /** update_run followed by _emit, as _terminal and the lookup failure do. */
  function SetThenEmit(c: Cell, status: Status, failure: Option<string>, kind: Kind, now: nat): Cell
    requires c.row.Some? && c.active.Some?
  {
    var row := Apply(c.row.value, Change(None, Some(status), None, failure, false), now);
    Emit(c.(row := Some(row), active := Some(Active(row, Finished))), kind, now)
  }

  function Reconciled(c: Cell, reply: Reply, now: nat): Cell
    requires c.row.Some? && c.active.Some?
  {
    var done := c.(active := Some(c.active.value.(task := Finished)));
    match reply
    case Missing => SetThenEmit(c, Unrecoverable, Some("run_unrecoverable"), OtherKind, now)
    case SaysCompleted => SetThenEmit(c, Completed, None, AgentCompleted, now)
    case SaysCancelled => SetThenEmit(c, Cancelled, None, AgentStopped, now)
    case SaysFailed => SetThenEmit(c, Failed, Some("target_failed"), AgentFailed, now)
    case SaysWaiting => Emit(done, OtherKind, now)
    case SaysOther => c
    case GivesUp => done
  }

  function Recovered(c: Cell, olderThan: nat): Cell {
    var row := if c.row.Some? && Expired(c.row.value, olderThan) then None else c.row;
    var again := row.Some? && Recoverable(row.value);
    c.(row := row, active := if again then Some(Active(row.value, Reconciling)) else None,
       registered := again, starting := None, approving := 0, stopping := 0)
  }

  function OlderThan(now: nat, retention: nat): nat {
    if now < retention then 0 else now - retention
  }

  /** A step that concerns one run only. */
  function CellStep(c: Cell, op: Op, now: nat): Cell {
    if c.row.None? then c
    else
      var row := c.row.value;
      match op
      case Post(_) =>
        if c.starting == Some(BeforePost) then c.(starting := Some(Posted), posts := c.posts + 1) else c
      case StartFails(_) =>
        if c.starting.None? then c
        else c.(starting := None, row := Some(Apply(row,
          Change(None, Some(Rejected), None, Some("submission_failed"), true), now)))
      case StartAmbiguous(_) =>
        if c.starting != Some(Posted) then c
        else c.(starting := None, row := Some(Apply(row,
          Change(None, Some(AcceptanceUnknown), None, Some("ambiguous_submission"), false), now)))
      case StartAbandoned(_) => c.(starting := None)
      case StartAccepted(_, runId) =>
        if c.starting != Some(Posted) then c
        else
          var accepted := Apply(row, Change(Some(runId), Some(Running), None, None, false), now);
          Emit(c.(starting := None, row := Some(accepted), registered := true,
                  active := Some(Active(accepted, Consuming))), OtherKind, now)
      case StreamEvent(_, kind) =>
        if c.active.None? || !c.active.value.task.Consuming? then c
        else
          var task := if TerminalKind(kind) then Finished else Consuming;
          Emit(c.(active := Some(c.active.value.(task := task))), kind, now)
      case StreamEnds(_, lost) =>
        if c.active.None? || !c.active.value.task.Consuming? then c
        else
          var task := if lost || !Terminal(c.active.value.record.status) then Reconciling else Finished;
          c.(active := Some(c.active.value.(task := task)))
      case Reconcile(_, reply) =>
        if c.active.None? || !c.active.value.task.Reconciling? then c else Reconciled(c, reply, now)
      case ApproveBegin(_, owner) =>
        if c.registered && row.owner == owner then c.(approving := c.approving + 1) else c
      case ApproveReply(_, ok) =>
        if c.approving == 0 then c
        else
          var rest := c.(approving := c.approving - 1);
          if ok && rest.active.Some? && !Terminal(rest.active.value.record.status)
          then Emit(rest, ApprovalResolved, now) else rest
      case StopBegin(_, owner) =>
        if c.registered && row.owner == owner then c.(stopping := c.stopping + 1) else c
      case StopReply(_, ok) =>
        if c.stopping == 0 then c
        else
          var rest := c.(stopping := c.stopping - 1);
          if ok && rest.active.Some? then Emit(rest, OtherKind, now) else rest
      case AckUnknown(_, owner) =>
        if row.owner != owner || row.status != AcceptanceUnknown then c
        else c.(row := Some(Apply(row, Change(None, Some(Failed), None, Some("owner_acknowledged"), true), now)))
      case AckUnrecoverable(_, owner) =>
        if row.runId.None? then c
        else if row.owner != owner || row.status != Unrecoverable then c.(registered := false)
        else c.(registered := false, row := Some(Apply(row,
          Change(None, Some(Failed), None, Some("owner_acknowledged_unrecoverable"), true), now)))
      case _ => c
  }

  ghost predicate Locked(s: State, conversation: string, owner: string) {
    exists x :: x in s.cells && s.cells[x].row.Some? && Locks(s.cells[x].row.value, conversation, owner)
  }

  ghost predicate FencedOff(s: State, owner: string, target: string) {
    exists x :: x in s.cells && s.cells[x].row.Some? && Fences(s.cells[x].row.value, owner, target)
  }

  ghost predicate RunIdTaken(s: State, runId: string) {
    exists x :: x in s.cells && s.cells[x].row.Some? && s.cells[x].row.value.runId == Some(runId)
  }

  ghost function Step(s: State, op: Op): State {
    match op
    case Start(id, target, conversation, owner) =>
      if Get(s, id).used || FencedOff(s, owner, target) || Locked(s, conversation, owner) then s
      else s.(cells := s.cells[id := BLANK.(used := true, row := Some(NewRow(target, conversation, owner)),
                                            starting := Some(BeforePost))])
    case StartAccepted(id, runId) =>
      // A repeated run id violates the unique column: the row stays as it is.
      var outcome := if RunIdTaken(s, runId) then StartAbandoned(id) else op;
      s.(cells := s.cells[id := CellStep(Get(s, id), outcome, s.now)])
    case Restart(retention) =>
      s.(cells := map x | x in s.cells :: Recovered(s.cells[x], OlderThan(s.now, retention)))
    case Tick => s.(now := s.now + 1)
    case _ => s.(cells := s.cells[op.id := CellStep(Get(s, op.id), op, s.now)])
  }

  ghost function Run(s: State, ops: seq<Op>): State {
    if ops == [] then s else Step(Run(s, ops[..|ops| - 1]), ops[|ops| - 1])
  }

  ghost const INITIAL := State(map[], 0)

  // ---- One run -----------------------------------------------------------------------

  /** The stored row was acknowledged behind the back of an idle ActiveRun. */
  ghost predicate Detached(c: Cell) {
    && c.row.Some? && c.row.value.status == Failed
    && c.active.Some? && c.active.value.record.status == Unrecoverable && c.active.value.task.Finished?
    && !c.registered && c.approving == 0
  }

  ghost predicate Sound(c: Cell) {
    && (c.row.Some? ==> c.used)
    && (c.row.Some? && c.row.value.terminalAt.Some? ==> Terminal(c.row.value.status))
    && (c.row.Some? && c.row.value.status in {Submitting, AcceptanceUnknown} ==> c.row.value.runId.None?)
    && (c.active.Some? ==>
          && c.row.Some? && c.row.value.runId.Some? && c.starting.None?
          && (c.active.value.record == c.row.value || Detached(c))
          && (!c.active.value.task.Finished? ==>
                !Terminal(c.row.value.status) && c.row.value.status != Unrecoverable))
    && (c.registered || c.approving > 0 || c.stopping > 0 ==> c.active.Some?)
    && (c.starting.Some? ==> c.row.Some? && c.row.value.status == Submitting)
    && (c.starting == Some(BeforePost) ==> c.posts == 0)
    && c.posts <= 1 && c.terminals <= 1
    && (c.terminals == 1 ==>
          && (c.row.Some? ==> Terminal(c.row.value.status))
          && (c.active.Some? ==> c.active.value.task.Finished?))
    && (!c.used ==> c == BLANK)
  }

  /** An approval is in flight when its run is acknowledged as unrecoverable. */
  ghost predicate Overtaken(c: Cell, op: Op) {
    && op.AckUnrecoverable? && c.approving > 0
    && c.row.Some? && c.row.value.owner == op.owner && c.row.value.status == Unrecoverable
  }

  /** The steps of the background task and of calls that hold the ActiveRun. */
  predicate TaskOp(op: Op) {
    op.StreamEvent? || op.StreamEnds? || op.Reconcile?
  }

  predicate CallOp(op: Op) {
    op.ApproveBegin? || op.ApproveReply? || op.StopBegin? || op.StopReply?
  }

  lemma StartStaysSound(c: Cell, op: Op, now: nat)
    requires Sound(c)
    requires op.Post? || op.StartFails? || op.StartAmbiguous? || op.StartAbandoned? || op.StartAccepted?
    ensures Sound(CellStep(c, op, now))
  {
  }

  lemma StreamStaysSound(c: Cell, op: Op, now: nat)
    requires Sound(c) && (op.StreamEvent? || op.StreamEnds?)
    ensures Sound(CellStep(c, op, now))
  {
  }

  lemma ReconcileStaysSound(c: Cell, id: string, reply: Reply, now: nat)
    requires Sound(c)
    ensures Sound(CellStep(c, Reconcile(id, reply), now))
  {
  }

  lemma CallStaysSound(c: Cell, op: Op, now: nat)
    requires Sound(c) && CallOp(op)
    ensures Sound(CellStep(c, op, now))
  {
  }

  lemma AckStaysSound(c: Cell, op: Op, now: nat)
    requires Sound(c) && !Overtaken(c, op) && (op.AckUnknown? || op.AckUnrecoverable?)
    ensures Sound(CellStep(c, op, now))
  {
  }

  lemma CellStaysSound(c: Cell, op: Op, now: nat)
    requires Sound(c) && !Overtaken(c, op)
    ensures Sound(CellStep(c, op, now))
  {
    match op
    case StreamEvent(_, _) => StreamStaysSound(c, op, now);
    case StreamEnds(_, _) => StreamStaysSound(c, op, now);
    case Reconcile(id, reply) => ReconcileStaysSound(c, id, reply, now);
    case ApproveBegin(_, _) => CallStaysSound(c, op, now);
    case ApproveReply(_, _) => CallStaysSound(c, op, now);
    case StopBegin(_, _) => CallStaysSound(c, op, now);
    case StopReply(_, _) => CallStaysSound(c, op, now);
    case AckUnknown(_, _) => AckStaysSound(c, op, now);
    case AckUnrecoverable(_, _) => AckStaysSound(c, op, now);
    case Start(_, _, _, _) =>
    case Restart(_) =>
    case Tick =>
    case _ => StartStaysSound(c, op, now);
  }

  // ---- What each step does ---------------------------------------------------------------

  /** A start inserts its run if and only if its id is new, no acceptance_unknown run of the
      owner is on the target, and every run of the owner in the conversation is terminal. */
  lemma StartDecides(s: State, id: string, target: string, conversation: string, owner: string)
    ensures var t := Step(s, Start(id, target, conversation, owner));
            if !Get(s, id).used
               && (forall x :: Get(s, x).row.Some? && Get(s, x).row.value.owner == owner ==>
                     && !(Get(s, x).row.value.target == target && Get(s, x).row.value.status == AcceptanceUnknown)
                     && (Get(s, x).row.value.conversation == conversation ==>
                           Get(s, x).row.value.status in {Completed, Failed, Cancelled, Rejected}))
            then
              && Get(t, id).row == Some(Row(None, target, conversation, owner, Submitting, 0, None, None))
              && Get(t, id).starting == Some(BeforePost) && Get(t, id).active.None? && !Get(t, id).registered
              && Get(t, id).used && Get(t, id).posts == 0
              && forall x :: x != id ==> Get(t, x) == Get(s, x)
            else t == s
  {
    if FencedOff(s, owner, target) {
      var x :| x in s.cells && s.cells[x].row.Some? && Fences(s.cells[x].row.value, owner, target);
      assert Get(s, x).row.Some?;
    }
    if Locked(s, conversation, owner) {
      var x :| x in s.cells && s.cells[x].row.Some? && Locks(s.cells[x].row.value, conversation, owner);
      assert Get(s, x).row.Some?;
    }
    assert forall x :: Get(s, x).row.Some? ==> x in s.cells && Get(s, x) == s.cells[x];
  }

  lemma PostDecides(c: Cell, id: string, now: nat)
    ensures CellStep(c, Post(id), now) ==
            if c.row.Some? && c.starting == Some(BeforePost)
            then c.(starting := Some(Posted), posts := c.posts + 1) else c
  {
  }

  /** What a start that fails leaves: an ambiguous submission keeps both locks, any other is
      rejected and terminal, and a start that ends otherwise changes nothing else. */
  lemma StartFailureDecides(c: Cell, id: string, now: nat)
    requires c.row.Some? && c.starting.Some?
    ensures var row, next := c.row.value, CellStep(c, StartFails(id), now);
            && next == c.(starting := None, row := next.row) && next.row.Some?
            && next.row.value == row.(status := Rejected, failure := Some("submission_failed"), terminalAt := Some(now))
    ensures c.starting == Some(Posted) ==>
              CellStep(c, StartAmbiguous(id), now)
              == c.(starting := None, row := Some(c.row.value.(status := AcceptanceUnknown,
                                                               failure := Some("ambiguous_submission"))))
    ensures CellStep(c, StartAbandoned(id), now) == c.(starting := None)
  {
  }

  /** An acceptance: the run id, the status running, the first event's number, and an ActiveRun
      that consumes the stream. */
  lemma AcceptanceDecides(c: Cell, id: string, runId: string, now: nat)
    requires c.row.Some? && c.starting == Some(Posted)
    ensures var next := CellStep(c, StartAccepted(id, runId), now);
            && next.row == Some(c.row.value.(runId := Some(runId), status := Running,
                                             lastSequence := c.row.value.lastSequence + 1))
            && next == c.(starting := None, row := next.row, registered := true,
                          active := Some(Active(next.row.value, Consuming)))
  {
  }

  /** A run id that another run already has abandons the start, and any other is recorded. */
  lemma AcceptanceIsUnique(s: State, id: string, runId: string)
    ensures Get(Step(s, StartAccepted(id, runId)), id) ==
            if exists x :: Get(s, x).row.Some? && Get(s, x).row.value.runId == Some(runId)
            then CellStep(Get(s, id), StartAbandoned(id), s.now)
            else CellStep(Get(s, id), StartAccepted(id, runId), s.now)
    ensures Step(s, Tick) == s.(now := s.now + 1)
  {
    StepAt(s, StartAccepted(id, runId), id);
    assert forall x :: Get(s, x).row.Some? ==> x in s.cells && Get(s, x) == s.cells[x];
    if RunIdTaken(s, runId) {
      var x :| x in s.cells && s.cells[x].row.Some? && s.cells[x].row.value.runId == Some(runId);
      assert Get(s, x).row.Some?;
    }
  }

  /** What one streamed event does to a run that is being consumed: the next sequence number,
      and the status its type announces, or the old one. */
  lemma StreamEventDecides(c: Cell, id: string, kind: Kind, now: nat)
    requires Sound(c) && c.active.Some? && c.active.value.task.Consuming?
    ensures var row, next := c.row.value, CellStep(c, StreamEvent(id, kind), now).row.value;
            && next == row.(status := next.status, lastSequence := row.lastSequence + 1, terminalAt := next.terminalAt)
            && (next.status == Completed <==> kind.AgentCompleted?)
            && (next.status == Failed <==> kind.AgentFailed?)
            && (next.status == Cancelled <==> kind.AgentStopped?)
            && (kind.ApprovalRequest? ==> next.status == WaitingForApproval)
            && (kind.ApprovalResponded? || kind.ApprovalResolved? ==> next.status == Running)
            && (kind.OtherKind? ==> next.status == row.status)
            && next.terminalAt == (if kind in {AgentCompleted, AgentFailed, AgentStopped} then Some(now) else None)
  {
  }

  /** And the registry, the task and the count of terminal events. */
  lemma StreamEventEnds(c: Cell, id: string, kind: Kind, now: nat)
    requires Sound(c) && c.active.Some? && c.active.value.task.Consuming?
    ensures var d, ends := CellStep(c, StreamEvent(id, kind), now), kind in {AgentCompleted, AgentFailed, AgentStopped};
            && d == c.(row := d.row, active := d.active, registered := c.registered && !ends,
                       terminals := c.terminals + (if ends then 1 else 0))
            && d.active == Some(Active(d.row.value, if ends then Finished else Consuming))
  {
  }

  /** A stream that is lost, or that ends before the run is terminal, is reconciled. */
  lemma StreamEndDecides(c: Cell, id: string, lost: bool, now: nat)
    requires Sound(c) && c.active.Some? && c.active.value.task.Consuming?
    ensures CellStep(c, StreamEnds(id, lost), now)
         == c.(active := Some(c.active.value.(task := Reconciling)))
  {
  }

  /** What a lookup answer does to a run that is being reconciled. */
  lemma ReconcileDecides(c: Cell, id: string, reply: Reply, now: nat)
    requires Sound(c) && c.active.Some? && c.active.value.task.Reconciling?
    ensures var row, next := c.row.value, CellStep(c, Reconcile(id, reply), now).row.value;
            && (next.status == Unrecoverable <==> reply.Missing?)
            && (next.status == Completed <==> reply.SaysCompleted?)
            && (next.status == Cancelled <==> reply.SaysCancelled?)
            && (next.status == Failed <==> reply.SaysFailed?)
            && (reply.SaysWaiting? || reply.SaysOther? || reply.GivesUp? ==> next.status == row.status)
            && next == row.(status := next.status, failure := next.failure, terminalAt := next.terminalAt,
                            lastSequence := row.lastSequence + (if reply.SaysOther? || reply.GivesUp? then 0 else 1))
            && next.failure == (if reply.Missing? then Some("run_unrecoverable")
                                else if reply.SaysFailed? then Some("target_failed") else row.failure)
            && next.terminalAt == (if reply.SaysCompleted? || reply.SaysCancelled? || reply.SaysFailed?
                                   then Some(now) else None)
  {
  }

  lemma ReconcileEnds(c: Cell, id: string, reply: Reply, now: nat)
    requires Sound(c) && c.active.Some? && c.active.value.task.Reconciling?
    ensures var d := CellStep(c, Reconcile(id, reply), now);
            var ends := reply.SaysCompleted? || reply.SaysCancelled? || reply.SaysFailed?;
            && d == c.(row := d.row, active := d.active, registered := c.registered && !ends,
                       terminals := c.terminals + (if ends then 1 else 0))
            && d.active == Some(Active(d.row.value, if reply.SaysOther? then Reconciling else Finished))
  {
  }

  /** Only the owner's registered run has an approval or a stop begun for it. */
  lemma CallBegins(c: Cell, id: string, owner: string, now: nat)
    requires c.row.Some?
    ensures CellStep(c, ApproveBegin(id, owner), now)
         == c.(approving := c.approving + (if c.registered && c.row.value.owner == owner then 1 else 0))
    ensures CellStep(c, StopBegin(id, owner), now)
         == c.(stopping := c.stopping + (if c.registered && c.row.value.owner == owner then 1 else 0))
  {
  }

  /** A granted approval sets a run that has not ended running, with the next number. */
  lemma ApprovalDecides(c: Cell, id: string, ok: bool, now: nat)
    requires Sound(c) && c.approving > 0
    ensures var d, row := CellStep(c, ApproveReply(id, ok), now), c.row.value;
            && d == c.(approving := c.approving - 1, row := d.row, active := d.active)
            && (if ok && row.status !in {Completed, Failed, Cancelled, Rejected}
                then d.row == Some(row.(status := Running, lastSequence := row.lastSequence + 1))
                     && d.active == Some(c.active.value.(record := d.row.value))
                else d.row == c.row && d.active == c.active)
  {
  }

  /** A stop that Hermes takes is numbered, and leaves the status to the stream. */
  lemma StopDecides(c: Cell, id: string, ok: bool, now: nat)
    requires Sound(c) && c.stopping > 0
    ensures var d, row := CellStep(c, StopReply(id, ok), now), c.row.value;
            && d == c.(stopping := c.stopping - 1, row := d.row, active := d.active)
            && (if ok
                then d.row == Some(row.(lastSequence := c.active.value.record.lastSequence + 1))
                     && d.active == Some(c.active.value.(record := d.row.value))
                else d.row == c.row && d.active == c.active)
  {
  }

  /** An acknowledgement takes effect exactly for the owner of a run in that status. */
  lemma AcknowledgementDecides(c: Cell, id: string, owner: string, now: nat)
    requires c.row.Some?
    ensures CellStep(c, AckUnknown(id, owner), now) ==
            if c.row.value.owner == owner && c.row.value.status == AcceptanceUnknown
            then c.(row := Some(c.row.value.(status := Failed, failure := Some("owner_acknowledged"),
                                             terminalAt := Some(now))))
            else c
    ensures CellStep(c, AckUnrecoverable(id, owner), now) ==
            if c.row.value.runId.None? then c
            else if c.row.value.owner == owner && c.row.value.status == Unrecoverable
            then c.(registered := false,
                    row := Some(c.row.value.(status := Failed, failure := Some("owner_acknowledged_unrecoverable"),
                                             terminalAt := Some(now))))
            else c.(registered := false)
  {
  }

  /** A restart drops what has been terminal for longer than the retention, and every call. */
  lemma RestartDecides(s: State, retention: nat, id: string)
    requires id in s.cells
    ensures var c, d := s.cells[id], Get(Step(s, Restart(retention)), id);
            && d.row == (if c.row.Some? && c.row.value.terminalAt.Some?
                            && c.row.value.terminalAt.value + retention < s.now then None else c.row)
            && d == c.(row := d.row, active := d.active, registered := d.active.Some?,
                       starting := None, approving := 0, stopping := 0)
  {
    StepAt(s, Restart(retention), id);
  }

  /** What no step of a run ever does to its row: change whose it is, or leave a terminal
      status. */
  ghost predicate RowEvolves(before: Cell, after: Cell) {
    after.row.Some? ==>
      && before.row.Some?
      && after.row.value.conversation == before.row.value.conversation
      && after.row.value.owner == before.row.value.owner
      && after.row.value.target == before.row.value.target
      && (Terminal(before.row.value.status) ==> after.row.value.status == before.row.value.status)
  }

  lemma CellEvolves(c: Cell, op: Op, now: nat)
    requires Sound(c)
    ensures RowEvolves(c, CellStep(c, op, now))
  {
    if TaskOp(op) {
      TaskEvolves(c, op, now);
    } else if CallOp(op) {
      CallEvolves(c, op, now);
    }
  }

  lemma TaskEvolves(c: Cell, op: Op, now: nat)
    requires Sound(c) && TaskOp(op)
    ensures RowEvolves(c, CellStep(c, op, now))
  {
  }

  lemma CallEvolves(c: Cell, op: Op, now: nat)
    requires Sound(c) && CallOp(op)
    ensures RowEvolves(c, CellStep(c, op, now))
  {
  }

  lemma RunIdsComeFromAcceptance(c: Cell, op: Op, now: nat)
    requires Sound(c) && CellStep(c, op, now).row.Some?
    ensures c.row.Some?
    ensures CellStep(c, op, now).row.value.runId == c.row.value.runId
         || (op.StartAccepted? && CellStep(c, op, now).row.value.runId == Some(op.runId))
  {
  }

  // ---- All runs -----------------------------------------------------------------------

  ghost predicate AllSound(s: State) {
    forall x :: x in s.cells ==> Sound(s.cells[x])
  }

  predicate BothLock(a: Option<Row>, b: Option<Row>) {
    a.Some? && b.Some? && !Terminal(b.value.status) && Locks(a.value, b.value.conversation, b.value.owner)
  }

  predicate SameRunId(a: Option<Row>, b: Option<Row>) {
    a.Some? && b.Some? && a.value.runId.Some? && a.value.runId == b.value.runId
  }

  /** At most one non-terminal run for each conversation and owner. */
  ghost predicate LockedOnce(s: State) {
    forall x, y :: x in s.cells && y in s.cells && BothLock(s.cells[x].row, s.cells[y].row) ==> x == y
  }

  ghost predicate RunIdsUnique(s: State) {
    forall x, y :: x in s.cells && y in s.cells && SameRunId(s.cells[x].row, s.cells[y].row) ==> x == y
  }

  ghost predicate Good(s: State) {
    AllSound(s) && LockedOnce(s) && RunIdsUnique(s)
  }

  ghost predicate Overtakes(s: State, op: Op) {
    op.AckUnrecoverable? && Overtaken(Get(s, op.id), op)
  }

  /** No approval is in flight whenever a run is acknowledged as unrecoverable. */
  ghost predicate Guarded(s: State, ops: seq<Op>) {
    ops != [] ==> Guarded(s, ops[..|ops| - 1]) && !Overtakes(Run(s, ops[..|ops| - 1]), ops[|ops| - 1])
  }

  lemma StartKeepsGood(s: State, id: string, target: string, conversation: string, owner: string)
    requires Good(s)
    ensures Good(Step(s, Start(id, target, conversation, owner)))
  {
  }

  /** The run id of a changed row is its own or nobody's. */
  ghost predicate RunIdAllowed(s: State, before: Option<Row>, after: Option<Row>) {
    after.None? || (before.Some? && after.value.runId == before.value.runId)
    || (after.value.runId.Some? && !RunIdTaken(s, after.value.runId.value))
  }

  lemma ReplaceKeepsGood(s: State, id: string, c: Cell)
    requires Good(s) && Sound(c) && RowEvolves(Get(s, id), c) && RunIdAllowed(s, Get(s, id).row, c.row)
    ensures Good(s.(cells := s.cells[id := c]))
  {
  }

  lemma CellOpKeepsGood(s: State, id: string, op: Op)
    requires Good(s) && !Overtaken(Get(s, id), op)
    requires op.StartAccepted? ==> !RunIdTaken(s, op.runId)
    ensures Good(s.(cells := s.cells[id := CellStep(Get(s, id), op, s.now)]))
  {
    var c := Get(s, id);
    CellStaysSound(c, op, s.now);
    CellEvolves(c, op, s.now);
    if CellStep(c, op, s.now).row.Some? {
      RunIdsComeFromAcceptance(c, op, s.now);
    }
    ReplaceKeepsGood(s, id, CellStep(c, op, s.now));
  }

  lemma RestartKeepsGood(s: State, retention: nat)
    requires Good(s)
    ensures Good(Step(s, Restart(retention)))
  {
  }

  lemma StepKeepsGood(s: State, op: Op)
    requires Good(s) && !Overtakes(s, op)
    ensures Good(Step(s, op))
  {
    match op
    case Start(id, target, conversation, owner) => StartKeepsGood(s, id, target, conversation, owner);
    case Restart(retention) => RestartKeepsGood(s, retention);
    case Tick =>
    case StartAccepted(id, runId) =>
      CellOpKeepsGood(s, id, if RunIdTaken(s, runId) then StartAbandoned(id) else op);
    case _ => CellOpKeepsGood(s, op.id, op);
  }

  /** In every run in which no approval is in flight across an unrecoverable
      acknowledgement: a conversation is locked by at most one run of its owner, a set
      terminal_at means a terminal status, each run is posted at most once and emits at
      most one terminal event. */
  lemma {:induction false} EveryRunIsGood(s: State, ops: seq<Op>)
    requires Good(s) && Guarded(s, ops)
    ensures Good(Run(s, ops))
  {
    if ops != [] {
      EveryRunIsGood(s, ops[..|ops| - 1]);
      StepKeepsGood(Run(s, ops[..|ops| - 1]), ops[|ops| - 1]);
    }
  }

  /** The same, spelled out for two runs of one conversation. */
  lemma OneLockPerConversation(ops: seq<Op>, x: string, y: string)
    requires Guarded(INITIAL, ops)
    ensures var s := Run(INITIAL, ops);
            && (BothLock(Get(s, x).row, Get(s, y).row) ==> x == y)
            && Get(s, x).posts <= 1 && Get(s, x).terminals <= 1
            && (Get(s, x).row.Some? && Get(s, x).row.value.terminalAt.Some? ==>
                  Terminal(Get(s, x).row.value.status))
  {
    EveryRunIsGood(INITIAL, ops);
  }

  /** What a restart keeps of a run that still locks its conversation. */
  ghost predicate Spared(c: Cell, d: Cell) {
    && d.row == c.row && c.row.Some?
    && (d.active.Some? <==> c.row.value.status in {Running, WaitingForApproval} && c.row.value.runId.Some?)
    && (d.active.Some? ==> d.active.value == Active(c.row.value, Reconciling))
  }

  lemma RecoveredSpares(c: Cell, olderThan: nat)
    requires Sound(c) && c.row.Some? && !Terminal(c.row.value.status)
    ensures Spared(c, Recovered(c, olderThan))
  {
  }

  /** Cleanup at a restart never deletes a run that still locks its conversation, and the
      restart tracks exactly those of them that Hermes may still know. */
  lemma CleanupSparesLocks(ops: seq<Op>, retention: nat, id: string)
    requires Guarded(INITIAL, ops)
    requires Get(Run(INITIAL, ops), id).row.Some? && !Terminal(Get(Run(INITIAL, ops), id).row.value.status)
    ensures Spared(Get(Run(INITIAL, ops), id), Get(Step(Run(INITIAL, ops), Restart(retention)), id))
  {
    var s := Run(INITIAL, ops);
    EveryRunIsGood(INITIAL, ops);
    StepAt(s, Restart(retention), id);
    RecoveredSpares(Get(s, id), OlderThan(s.now, retention));
  }

  /** The step a run's own cell takes: its operation, or nothing. */
  ghost function CellAt(s: State, op: Op, id: string): Cell {
    match op
    case Tick => Get(s, id)
    case Restart(retention) => Recovered(Get(s, id), OlderThan(s.now, retention))
    case Start(x, target, conversation, owner) =>
      if x != id || Get(s, id).used || FencedOff(s, owner, target) || Locked(s, conversation, owner) then Get(s, id)
      else BLANK.(used := true, row := Some(NewRow(target, conversation, owner)), starting := Some(BeforePost))
    case StartAccepted(x, runId) =>
      if x != id then Get(s, id)
      else CellStep(Get(s, id), if RunIdTaken(s, runId) then StartAbandoned(id) else op, s.now)
    case _ => if op.id == id then CellStep(Get(s, id), op, s.now) else Get(s, id)
  }

  lemma StepAt(s: State, op: Op, id: string)
    ensures Get(Step(s, op), id) == CellAt(s, op, id)
  {
  }

  lemma CellPosts(c: Cell, op: Op, now: nat)
    ensures CellStep(c, op, now).posts ==
            c.posts + (if op.Post? && c.row.Some? && c.starting == Some(BeforePost) then 1 else 0)
  {
  }

  /** Only the start() call that is about to post does so, and a restart never does. */
  lemma PostsOnlyWhenStarting(s: State, op: Op, id: string)
    requires !Get(s, id).used ==> Get(s, id).posts == 0
    ensures Get(Step(s, op), id).posts == Get(s, id).posts
         || (op == Post(id) && Get(s, id).starting == Some(BeforePost)
             && Get(Step(s, op), id).posts == Get(s, id).posts + 1)
  {
    StepAt(s, op, id);
    if op.StartAccepted? {
      CellPosts(Get(s, id), StartAbandoned(id), s.now);
      CellPosts(Get(s, id), op, s.now);
    } else if !op.Start? && !op.Restart? && !op.Tick? {
      CellPosts(Get(s, id), op, s.now);
    }
  }

  ghost predicate Ended(c: Cell, status: Status) {
    c.used && (c.row.Some? ==> c.row.value.status == status)
  }

  /** A terminal status is final: no late event, approval, stop result, acknowledgement or
      restart changes it; the row can only disappear. */
  lemma {:induction false} TerminalIsFinal(s: State, ops: seq<Op>, id: string)
    requires Good(s) && Guarded(s, ops)
    requires Get(s, id).row.Some? && Terminal(Get(s, id).row.value.status)
    ensures Ended(Get(Run(s, ops), id), Get(s, id).row.value.status)
  {
    if ops != [] {
      var init, op := ops[..|ops| - 1], ops[|ops| - 1];
      TerminalIsFinal(s, init, id);
      EveryRunIsGood(s, init);
      EndedStays(Run(s, init), op, id, Get(s, id).row.value.status);
    }
  }

  lemma EndedStays(s: State, op: Op, id: string, status: Status)
    requires Good(s) && Terminal(status) && Ended(Get(s, id), status)
    ensures Ended(Get(Step(s, op), id), status)
  {
    StepAt(s, op, id);
    if op.StartAccepted? {
      CellEnds(Get(s, id), StartAbandoned(id), s.now, status);
      CellEnds(Get(s, id), op, s.now, status);
    } else {
      CellEnds(Get(s, id), op, s.now, status);
    }
  }

  lemma CellEnds(c: Cell, op: Op, now: nat, status: Status)
    requires Sound(c) && Terminal(status) && Ended(c, status)
    ensures Ended(CellStep(c, op, now), status)
  {
    CellEvolves(c, op, now);
    CellUsed(c, op, now);
  }

  lemma CellUsed(c: Cell, op: Op, now: nat)
    ensures CellStep(c, op, now).used == c.used
  {
  }

  // ---- The acceptance_unknown fence ----------------------------------------------------

  /** A run that Hermes never confirmed has no in-memory side; needs no guard. */
  ghost predicate Unconfirmed(c: Cell) {
    && (c.row.Some? && c.row.value.status in {Submitting, AcceptanceUnknown} ==>
          c.row.value.runId.None? && c.active.None? && c.row.value.terminalAt.None?)
    && (c.row.Some? && c.row.value.status == AcceptanceUnknown ==> c.starting.None?)
    && (c.starting.Some? ==> c.row.Some? && c.row.value.status == Submitting)
    && (c.registered || c.approving > 0 || c.stopping > 0 ==> c.active.Some?)
    && (c.active.Some? ==> c.row.Some?)
    && (!c.used ==> c == BLANK)
  }

  lemma CellUnconfirmed(c: Cell, op: Op, now: nat)
    requires Unconfirmed(c)
    ensures Unconfirmed(CellStep(c, op, now))
  {
    if TaskOp(op) {
      TaskUnconfirmed(c, op, now);
    } else if CallOp(op) {
      CallUnconfirmed(c, op, now);
    }
  }

  lemma TaskUnconfirmed(c: Cell, op: Op, now: nat)
    requires Unconfirmed(c) && TaskOp(op)
    ensures Unconfirmed(CellStep(c, op, now))
  {
  }

  lemma CallUnconfirmed(c: Cell, op: Op, now: nat)
    requires Unconfirmed(c) && CallOp(op)
    ensures Unconfirmed(CellStep(c, op, now))
  {
  }

  lemma UnconfirmedStep(s: State, op: Op, id: string)
    requires Unconfirmed(Get(s, id))
    ensures Unconfirmed(Get(Step(s, op), id))
  {
    StepAt(s, op, id);
    if op.StartAccepted? {
      CellUnconfirmed(Get(s, id), StartAbandoned(id), s.now);
    }
    CellUnconfirmed(Get(s, id), op, s.now);
  }

  lemma {:induction false} AlwaysUnconfirmed(ops: seq<Op>, id: string)
    ensures Unconfirmed(Get(Run(INITIAL, ops), id))
  {
    if ops != [] {
      AlwaysUnconfirmed(ops[..|ops| - 1], id);
      UnconfirmedStep(Run(INITIAL, ops[..|ops| - 1]), ops[|ops| - 1], id);
    }
  }

  lemma UnknownStays(s: State, op: Op, id: string)
    requires Unconfirmed(Get(s, id)) && Get(s, id).row.Some?
    requires Get(s, id).row.value.status == AcceptanceUnknown
    requires op != AckUnknown(id, Get(s, id).row.value.owner)
    ensures Get(Step(s, op), id).row == Get(s, id).row
  {
    StepAt(s, op, id);
  }

  predicate OfPair(c: Cell, owner: string, target: string) {
    c.row.Some? && c.row.value.owner == owner && c.row.value.target == target
  }

  /** No run of the pair has been inserted since `s`. */
  ghost predicate NoneInserted(s: State, t: State, owner: string, target: string) {
    forall y :: Get(t, y).row.Some? && !Get(s, y).used ==> !OfPair(Get(t, y), owner, target)
  }

  lemma CellOwner(c: Cell, op: Op, now: nat)
    ensures CellStep(c, op, now).row.Some? ==>
              && c.row.Some?
              && CellStep(c, op, now).row.value.owner == c.row.value.owner
              && CellStep(c, op, now).row.value.target == c.row.value.target
  {
  }

  lemma FencedInsertsNone(s: State, t: State, op: Op, owner: string, target: string)
    requires NoneInserted(s, t, owner, target) && FencedOff(t, owner, target)
    ensures NoneInserted(s, Step(t, op), owner, target)
  {
    forall y | Get(Step(t, op), y).row.Some? && !Get(s, y).used
      ensures !OfPair(Get(Step(t, op), y), owner, target)
    {
      StepAt(t, op, y);
      CellOwner(Get(t, y), op, t.now);
      if op.StartAccepted? {
        CellOwner(Get(t, y), StartAbandoned(op.id), t.now);
      }
    }
  }

  /** An acceptance_unknown run keeps its row, across restarts and cleanup, until its owner
      acknowledges it, and meanwhile no start for the same owner and target inserts
      anything (and so posts nothing). */
  lemma {:induction false} UnknownUntilAcknowledged(before: seq<Op>, ops: seq<Op>, id: string)
    requires Get(Run(INITIAL, before), id).row.Some?
    requires Get(Run(INITIAL, before), id).row.value.status == AcceptanceUnknown
    requires forall i :: 0 <= i < |ops| ==>
               ops[i] != AckUnknown(id, Get(Run(INITIAL, before), id).row.value.owner)
    ensures var s := Run(INITIAL, before);
            var row := Get(s, id).row;
            && Get(Run(s, ops), id).row == row
            && NoneInserted(s, Run(s, ops), row.value.owner, row.value.target)
            && Unconfirmed(Get(Run(s, ops), id))
  {
    var s := Run(INITIAL, before);
    var row := Get(s, id).row.value;
    if ops == [] {
      AlwaysUnconfirmed(before, id);
      forall y ensures Unconfirmed(Get(s, y)) { AlwaysUnconfirmed(before, y); }
    } else {
      var init, op := ops[..|ops| - 1], ops[|ops| - 1];
      UnknownUntilAcknowledged(before, init, id);
      var t := Run(s, init);
      assert Fences(t.cells[id].row.value, row.owner, row.target);
      UnconfirmedStep(t, op, id);
      UnknownStays(t, op, id);
      FencedInsertsNone(s, t, op, row.owner, row.target);
    }
  }

  // ---- An approval in flight across an unrecoverable acknowledgement ---------------------

  ghost predicate TimestampHonest(c: Cell) {
    c.row.Some? && c.row.value.terminalAt.Some? ==> Terminal(c.row.value.status)
  }

  /** The acknowledgement writes the stored row only; the late approval finds the old record
      still unrecoverable and sets the row running again. */
  lemma CellReopens(c: Cell, id: string, owner: string, now: nat)
    requires Sound(c) && Overtaken(c, AckUnrecoverable(id, owner))
    ensures var d := CellStep(CellStep(c, AckUnrecoverable(id, owner), now), ApproveReply(id, true), now);
            && d.row.Some? && d.row.value.status == Running && d.row.value.terminalAt.Some?
            && d.row.value.conversation == c.row.value.conversation && d.row.value.owner == owner
  {
  }

  lemma LateApprovalReopens(s: State, id: string, owner: string)
    requires Good(s) && Overtaken(Get(s, id), AckUnrecoverable(id, owner))
    ensures var c := Get(Step(Step(s, AckUnrecoverable(id, owner)), ApproveReply(id, true)), id);
            && c.row.Some? && c.row.value.status == Running && c.row.value.terminalAt.Some?
            && c.row.value.conversation == Get(s, id).row.value.conversation
            && c.row.value.owner == owner
  {
    CellReopens(Get(s, id), id, owner, s.now);
    StepAt(s, AckUnrecoverable(id, owner), id);
    StepAt(Step(s, AckUnrecoverable(id, owner)), ApproveReply(id, true), id);
  }

  /** Acknowledging an unrecoverable run is safe exactly when no approval call of that run
      is waiting for Hermes. */
  lemma AcknowledgementSafeIff(s: State, id: string, owner: string)
    requires Good(s) && Get(s, id).row.Some? && Get(s, id).row.value.owner == owner
    requires Get(s, id).row.value.status == Unrecoverable
    ensures (forall ops :: Guarded(Step(s, AckUnrecoverable(id, owner)), ops) ==>
               TimestampHonest(Get(Run(Step(s, AckUnrecoverable(id, owner)), ops), id)))
       <==> Get(s, id).approving == 0
  {
    var ack := AckUnrecoverable(id, owner);
    if Get(s, id).approving == 0 {
      StepKeepsGood(s, ack);
      HonestFromHere(Step(s, ack), id);
    } else {
      LateApprovalReopens(s, id, owner);
      RunOne(Step(s, ack), ApproveReply(id, true));
      assert Guarded(Step(s, ack), [ApproveReply(id, true)]);
    }
  }

  lemma HonestFromHere(t: State, id: string)
    requires Good(t)
    ensures forall ops :: Guarded(t, ops) ==> TimestampHonest(Get(Run(t, ops), id))
  {
    forall ops | Guarded(t, ops)
      ensures TimestampHonest(Get(Run(t, ops), id))
    {
      EveryRunIsGood(t, ops);
    }
  }

  lemma RunOne(t: State, op: Op)
    ensures Run(t, [op]) == Step(t, op)
    ensures !op.AckUnrecoverable? ==> Guarded(t, [op])
  {
    assert [op][..0] == [] && [op][0] == op;
    assert Run(t, [op][..0]) == t;
  }

  lemma RunPair(t: State, a: Op, b: Op)
    ensures Run(t, [a, b]) == Step(Step(t, a), b)
    ensures !a.AckUnrecoverable? && !b.AckUnrecoverable? ==> Guarded(t, [a, b])
  {
    assert [a, b][..1] == [a] && [a, b][1] == b;
    RunOne(t, a);
  }

  /** A string that is not among these. */
  ghost function Unlike(names: set<string>): (name: string)
    ensures name !in names
  {
    var n := Longest(names);
    seq(n + 1, _ => 'x')
  }

  ghost function Longest(names: set<string>): (n: nat)
    ensures forall name :: name in names ==> |name| <= n
  {
    if names == {} then 0
    else
      var name :| name in names;
      var n := Longest(names - {name});
      if |name| < n then n else |name|
  }

  ghost function Targets(s: State): set<string> {
    set x | x in s.cells && s.cells[x].row.Some? :: s.cells[x].row.value.target
  }

  /** A start of the same conversation and owner that no fence stops, on an unused id. */
  ghost function Newcomer(s: State, conversation: string, owner: string): Op {
    Start(Unlike(s.cells.Keys), Unlike(Targets(s)), conversation, owner)
  }

  lemma NewcomerIsLetIn(t: State, conversation: string, owner: string)
    requires !Locked(t, conversation, owner)
    ensures var op := Newcomer(t, conversation, owner);
            && op.id !in t.cells
            && Get(Step(t, op), op.id).row == Some(NewRow(op.target, conversation, owner))
            && forall x :: x != op.id ==> Get(Step(t, op), x) == Get(t, x)
  {
    var op := Newcomer(t, conversation, owner);
    forall x
      ensures Get(Step(t, op), x) == CellAt(t, op, x)
    {
      StepAt(t, op, x);
    }
  }

  /** The acknowledged run was the one that locked the conversation. */
  lemma AcknowledgedUnlocks(s: State, id: string, owner: string)
    requires Good(s) && Get(s, id).row.Some? && Get(s, id).row.value.owner == owner
    requires Get(s, id).row.value.status == Unrecoverable && Get(s, id).row.value.runId.Some?
    ensures !Locked(Step(s, AckUnrecoverable(id, owner)), Get(s, id).row.value.conversation, owner)
  {
    var t, conversation := Step(s, AckUnrecoverable(id, owner)), Get(s, id).row.value.conversation;
    forall x | x in t.cells && t.cells[x].row.Some?
      ensures !Locks(t.cells[x].row.value, conversation, owner)
    {
      StepAt(s, AckUnrecoverable(id, owner), x);
      if x != id {
        assert !BothLock(s.cells[x].row, s.cells[id].row);
      }
    }
  }

  /** The late approval reopens its run although another has started meanwhile. */
  lemma TwoRunsLock(s: State, id: string, owner: string)
    requires Good(s) && Overtaken(Get(s, id), AckUnrecoverable(id, owner))
    ensures var t := Step(s, AckUnrecoverable(id, owner));
            !LockedOnce(Step(Step(t, Newcomer(t, Get(s, id).row.value.conversation, owner)), ApproveReply(id, true)))
  {
    var row := Get(s, id).row.value;
    var t := Step(s, AckUnrecoverable(id, owner));
    var op := Newcomer(t, row.conversation, owner);
    AcknowledgedUnlocks(s, id, owner);
    NewcomerIsLetIn(t, row.conversation, owner);
    CellReopens(Get(s, id), id, owner, s.now);
    StepAt(s, AckUnrecoverable(id, owner), id);
    var u := Step(t, op);
    StepAt(u, ApproveReply(id, true), id);
    StepAt(u, ApproveReply(id, true), op.id);
    var v := Step(u, ApproveReply(id, true));
    assert BothLock(Get(v, id).row, Get(v, op.id).row) && id != op.id;
  }

  /** Acknowledging an unrecoverable run leaves every conversation locked by at most one run of
      its owner, in every continuation, exactly when no approval of the acknowledged run is
      waiting for Hermes. */
  lemma AcknowledgementLocksIff(s: State, id: string, owner: string)
    requires Good(s) && Get(s, id).row.Some? && Get(s, id).row.value.owner == owner
    requires Get(s, id).row.value.status == Unrecoverable
    ensures (forall ops :: Guarded(Step(s, AckUnrecoverable(id, owner)), ops) ==>
               LockedOnce(Run(Step(s, AckUnrecoverable(id, owner)), ops)))
       <==> Get(s, id).approving == 0
  {
    var t := Step(s, AckUnrecoverable(id, owner));
    if Get(s, id).approving == 0 {
      StepKeepsGood(s, AckUnrecoverable(id, owner));
      forall ops | Guarded(t, ops)
        ensures LockedOnce(Run(t, ops))
      {
        EveryRunIsGood(t, ops);
      }
    } else {
      var op := Newcomer(t, Get(s, id).row.value.conversation, owner);
      TwoRunsLock(s, id, owner);
      RunPair(t, op, ApproveReply(id, true));
    }
  }
}
