/** The browser side of the control channel (frontend/src/lib/realtimeControlClient.ts):
    snapshot before replay, deduplication by event id, and the commands that wait for
    an acknowledgement. */
module ControlClient {
  import opened Options
  import opened Sequences
  import opened Projection

  const MAX_PENDING: nat := 128

  /** What the client's owner observes, in order. `socket` numbers the connections. */
  datatype Callback =
    | OnSnapshot(snapshot: Snapshot, socket: nat)
    | OnEvent(event: Event, socket: nat)

  datatype Frame =
    | SnapshotFrame(snapshot: Snapshot)
    | Subscribed(after: Option<string>)
    | GapFrame(snapshot: Snapshot, after: Option<string>)
    | EventFrame(event: Event, matching: bool)  // matching: of this conversation and session
    | Ack(requestId: string)
    | ErrorFrame
    | OtherFrame

  /** Accepted commands are numbered; the map of pending commands keeps insertion order. */
  datatype Pending = Pending(requestId: string, command: nat)

  datatype State = State(
    conversation: string,
    generation: nat,          // socketGeneration
    attached: bool,           // a socket is held
    snapshotReceived: bool,
    cursor: Option<string>,
    seen: seq<string>,        // insertion order
    pending: seq<Pending>,
    accepted: nat,
    settled: seq<nat>,        // command numbers, in the order their promises settled
    calls: seq<Callback>)

  datatype Op =
    | Open
    | Receive(socket: nat, frame: Frame)
    | SocketClosed(socket: nat)
    | Submit(requestId: string, open: bool, backpressured: bool, transmitted: bool)  // open: readyState is OPEN
    | TimeOut(waiting: Pending)
    | CloseByOwner

  ghost function Initial(conversation: string, after: Option<string>): State {
    State(conversation, 0, false, false, after, [], [], 0, [], [])
  }

  function Commands(pending: seq<Pending>): seq<nat> {
    seq(|pending|, i requires 0 <= i < |pending| => pending[i].command)
  }

  function Waiting(pending: seq<Pending>, requestId: string): (i: int)
    ensures -1 <= i < |pending|
    ensures i >= 0 ==> pending[i].requestId == requestId
    ensures i < 0 ==> forall k :: 0 <= k < |pending| ==> pending[k].requestId != requestId
  {
    if pending == [] then -1
    else if pending[|pending| - 1].requestId == requestId then |pending| - 1
    else Waiting(pending[..|pending| - 1], requestId)
  }

  /** The command leaves the map and its promise settles, in one step. */
  function Settle(s: State, i: nat): State
    requires i < |s.pending|
  {
    s.(pending := s.pending[..i] + s.pending[i + 1..], settled := s.settled + [s.pending[i].command])
  }

  function RejectAll(s: State): State {
    s.(pending := [], settled := s.settled + Commands(s.pending))
  }

  function Accepted(s: State, snapshot: Snapshot): State {
    if snapshot.conversation != s.conversation then s
    else s.(snapshotReceived := true, cursor := snapshot.lastEventId,
            calls := s.calls + [OnSnapshot(snapshot, s.generation)])
  }

  function Deliver(s: State, event: Event): State {
    s.(seen := LastN(s.seen + [event.id], SEEN_WINDOW), cursor := Some(event.id),
       calls := s.calls + [OnEvent(event, s.generation)])
  }

  function OnFrame(s: State, frame: Frame): State {
    match frame
    case SnapshotFrame(snapshot) => Accepted(s, snapshot)
    case Subscribed(after) => if s.snapshotReceived then s.(cursor := after) else s
    case GapFrame(snapshot, after) =>
      if snapshot.conversation != s.conversation then s else Accepted(s, snapshot).(cursor := after)
    case EventFrame(event, matching) =>
      if !s.snapshotReceived || event.id in s.seen || !matching then s else Deliver(s, event)
    case Ack(requestId) =>
      if Waiting(s.pending, requestId) < 0 then s else Settle(s, Waiting(s.pending, requestId))
    case ErrorFrame => RejectAll(s)
    case OtherFrame => s
  }

  /** A command is accepted; a transmission that fails settles it at once. */
  function Submitted(s: State, requestId: string, transmitted: bool): State {
    if transmitted then
      s.(pending := s.pending + [Pending(requestId, s.accepted)], accepted := s.accepted + 1)
    else s.(settled := s.settled + [s.accepted], accepted := s.accepted + 1)
  }

  predicate Current(s: State, socket: nat) {
    s.attached && socket == s.generation
  }

  function Step(s: State, op: Op): State {
    match op
    case Open => s.(generation := s.generation + 1, attached := true, snapshotReceived := false)
    case Receive(socket, frame) => if Current(s, socket) then OnFrame(s, frame) else s
    case SocketClosed(socket) =>
      if Current(s, socket) then RejectAll(s.(attached := false, snapshotReceived := false)) else s
    case Submit(requestId, open, backpressured, transmitted) =>
      if !s.attached || !open || !s.snapshotReceived || backpressured || |s.pending| >= MAX_PENDING
         || Waiting(s.pending, requestId) >= 0 then s
      else Submitted(s, requestId, transmitted)
    case TimeOut(waiting) =>
      var i := Waiting(s.pending, waiting.requestId);
      if i < 0 || s.pending[i] != waiting then s else Settle(s, i)
    case CloseByOwner =>
      RejectAll(s.(generation := s.generation + 1, attached := false, snapshotReceived := false))
  }

  function Run(s: State, ops: seq<Op>): State {
    if ops == [] then s else Step(Run(s, ops[..|ops| - 1]), ops[|ops| - 1])
  }

  // ---- Commands settle exactly once -------------------------------------------------

  ghost function Numbers(n: nat): multiset<nat> {
    if n == 0 then multiset{} else Numbers(n - 1) + multiset{n - 1}
  }

  lemma {:induction false} NumbersOnce(n: nat, c: nat)
    ensures Numbers(n)[c] == if c < n then 1 else 0
  {
    if n > 0 {
      NumbersOnce(n - 1, c);
    }
  }

  /** Every accepted command is either pending or settled, and never twice. */
  ghost predicate Accounted(settled: seq<nat>, commands: seq<nat>, accepted: nat) {
    multiset(settled) + multiset(commands) == Numbers(accepted)
  }

  ghost predicate AllAccounted(s: State) {
    Accounted(s.settled, Commands(s.pending), s.accepted) && |s.pending| <= MAX_PENDING
  }

  lemma MoveOne(settled: seq<nat>, commands: seq<nat>, i: nat, accepted: nat)
    requires Accounted(settled, commands, accepted) && i < |commands|
    ensures Accounted(settled + [commands[i]], commands[..i] + commands[i + 1..], accepted)
  {
    assert commands == commands[..i] + [commands[i]] + commands[i + 1..];
  }

  lemma MoveAll(settled: seq<nat>, commands: seq<nat>, accepted: nat)
    requires Accounted(settled, commands, accepted)
    ensures Accounted(settled + commands, [], accepted)
  {
  }

  lemma AddOne(settled: seq<nat>, commands: seq<nat>, accepted: nat)
    requires Accounted(settled, commands, accepted)
    ensures Accounted(settled + [accepted], commands, accepted + 1)
    ensures Accounted(settled, commands + [accepted], accepted + 1)
  {
  }

  lemma SettleAccounts(s: State, i: nat)
    requires AllAccounted(s) && i < |s.pending|
    ensures AllAccounted(Settle(s, i))
  {
    var c, rest := Commands(s.pending), s.pending[..i] + s.pending[i + 1..];
    MoveOne(s.settled, c, i, s.accepted);
    assert Commands(rest) == c[..i] + c[i + 1..];
  }

  lemma RejectAccounts(s: State, t: State)
    requires AllAccounted(s) && t.settled == s.settled && t.pending == s.pending && t.accepted == s.accepted
    ensures AllAccounted(RejectAll(t))
  {
    MoveAll(s.settled, Commands(s.pending), s.accepted);
    assert Commands([]) == [];
  }

  lemma SubmitAccounts(s: State, requestId: string, transmitted: bool)
    requires AllAccounted(s) && |s.pending| < MAX_PENDING
    ensures AllAccounted(Submitted(s, requestId, transmitted))
  {
    var p := s.pending + [Pending(requestId, s.accepted)];
    AddOne(s.settled, Commands(s.pending), s.accepted);
    assert Commands(p) == Commands(s.pending) + [s.accepted];
  }

  lemma FrameAccounts(s: State, frame: Frame)
    requires AllAccounted(s)
    ensures AllAccounted(OnFrame(s, frame))
  {
    match frame
    case Ack(r) => if Waiting(s.pending, r) >= 0 { SettleAccounts(s, Waiting(s.pending, r)); }
    case ErrorFrame => RejectAccounts(s, s);
    case _ =>
  }

  lemma AccountsStep(s: State, op: Op)
    requires AllAccounted(s)
    ensures AllAccounted(Step(s, op))
  {
    match op
    case Open =>
    case Receive(_, frame) => FrameAccounts(s, frame);
    case SocketClosed(_) => RejectAccounts(s, s.(attached := false, snapshotReceived := false));
    case Submit(r, _, _, t) => if |s.pending| < MAX_PENDING { SubmitAccounts(s, r, t); }
    case TimeOut(w) =>
      if Waiting(s.pending, w.requestId) >= 0 { SettleAccounts(s, Waiting(s.pending, w.requestId)); }
    case CloseByOwner =>
      RejectAccounts(s, s.(generation := s.generation + 1, attached := false, snapshotReceived := false));
  }

  lemma {:induction false} AlwaysAccounted(conversation: string, after: Option<string>, ops: seq<Op>)
    ensures AllAccounted(Run(Initial(conversation, after), ops))
  {
    if ops == [] {
      assert Commands([]) == [];
    } else {
      AlwaysAccounted(conversation, after, ops[..|ops| - 1]);
      AccountsStep(Run(Initial(conversation, after), ops[..|ops| - 1]), ops[|ops| - 1]);
    }
  }

  /** In every run each accepted command is pending or settled but not both, its promise
      settles at most once, and no more than 128 are pending. */
  lemma CommandsSettleOnce(conversation: string, after: Option<string>, ops: seq<Op>, command: nat)
    ensures var s := Run(Initial(conversation, after), ops);
            && |s.pending| <= MAX_PENDING
            && multiset(s.settled)[command] + multiset(Commands(s.pending))[command]
               == if command < s.accepted then 1 else 0
  {
    AlwaysAccounted(conversation, after, ops);
    NumbersOnce(Run(Initial(conversation, after), ops).accepted, command);
  }

  // ---- Which command settles ----------------------------------------------------------------

  /** No two pending commands have the same request id. */
  ghost predicate IdsDistinct(pending: seq<Pending>) {
    forall i, j :: 0 <= i < j < |pending| ==> pending[i].requestId != pending[j].requestId
  }

  lemma RemovalKeepsIds(pending: seq<Pending>, i: nat)
    requires IdsDistinct(pending) && i < |pending|
    ensures IdsDistinct(pending[..i] + pending[i + 1..])
  {
  }

  lemma FrameKeepsIds(s: State, frame: Frame)
    requires IdsDistinct(s.pending)
    ensures IdsDistinct(OnFrame(s, frame).pending)
  {
    if frame.Ack? && Waiting(s.pending, frame.requestId) >= 0 {
      RemovalKeepsIds(s.pending, Waiting(s.pending, frame.requestId));
    }
  }

  lemma IdsStep(s: State, op: Op)
    requires IdsDistinct(s.pending)
    ensures IdsDistinct(Step(s, op).pending)
  {
    match op
    case Receive(_, frame) => FrameKeepsIds(s, frame);
    case TimeOut(waiting) =>
      var i := Waiting(s.pending, waiting.requestId);
      if i >= 0 { RemovalKeepsIds(s.pending, i); }
    case _ =>
  }

  lemma {:induction false} IdsDistinctInEveryRun(conversation: string, after: Option<string>, ops: seq<Op>)
    ensures IdsDistinct(Run(Initial(conversation, after), ops).pending)
  {
    if ops != [] {
      IdsDistinctInEveryRun(conversation, after, ops[..|ops| - 1]);
      IdsStep(Run(Initial(conversation, after), ops[..|ops| - 1]), ops[|ops| - 1]);
    }
  }

  /** One command has settled and left; nothing else has changed. */
  ghost predicate OnlySettles(s: State, t: State, i: nat)
    requires i < |s.pending|
  {
    t == s.(pending := s.pending[..i] + s.pending[i + 1..], settled := s.settled + [s.pending[i].command])
  }

  lemma WaitingIs(pending: seq<Pending>, i: nat)
    requires IdsDistinct(pending) && i < |pending|
    ensures Waiting(pending, pending[i].requestId) == i
  {
  }

  /** An acknowledgement settles the command that has its id and no other. */
  lemma AckSettlesItsOwn(s: State, requestId: string, i: nat)
    requires IdsDistinct(s.pending) && s.attached && i < |s.pending| && s.pending[i].requestId == requestId
    ensures OnlySettles(s, Step(s, Receive(s.generation, Ack(requestId))), i)
  {
    WaitingIs(s.pending, i);
  }

  /** One that nobody waits for settles nothing. */
  lemma StrangeAckIsInert(s: State, requestId: string)
    requires forall k :: 0 <= k < |s.pending| ==> s.pending[k].requestId != requestId
    ensures Step(s, Receive(s.generation, Ack(requestId))) == s
  {
  }

  /** A timeout settles its own command while that is pending, and nothing afterwards. */
  lemma TimeOutSettlesItsOwn(s: State, waiting: Pending, i: nat)
    requires IdsDistinct(s.pending)
    ensures i < |s.pending| && s.pending[i] == waiting ==> OnlySettles(s, Step(s, TimeOut(waiting)), i)
    ensures waiting !in s.pending ==> Step(s, TimeOut(waiting)) == s
  {
    if i < |s.pending| && s.pending[i] == waiting {
      WaitingIs(s.pending, i);
    }
  }

  /** Every pending command has settled, in the order they were sent, and none is left. */
  ghost predicate AllSettled(s: State, t: State) {
    && t.pending == [] && t.accepted == s.accepted && |t.settled| == |s.settled| + |s.pending|
    && t.settled[..|s.settled|] == s.settled
    && forall i :: 0 <= i < |s.pending| ==> t.settled[|s.settled| + i] == s.pending[i].command
  }

  /** An error frame, the end of the socket and the owner's close settle everything. */
  lemma LossSettlesAll(s: State)
    ensures s.attached ==>
              var t := Step(s, Receive(s.generation, ErrorFrame));
              AllSettled(s, t) && t == s.(pending := [], settled := t.settled)
    ensures s.attached ==>
              var t := Step(s, SocketClosed(s.generation));
              AllSettled(s, t) && t == s.(attached := false, snapshotReceived := false, pending := [], settled := t.settled)
    ensures var t := Step(s, CloseByOwner);
            && AllSettled(s, t)
            && t == s.(generation := s.generation + 1, attached := false, snapshotReceived := false,
                       pending := [], settled := t.settled)
  {
  }

  /** A command is accepted if and only if the client is ready, the buffer has room, fewer than
      128 commands are pending and its id is not among them. It takes the next number, and is
      pending if it was transmitted and settled if not. */
  lemma SubmitDecides(s: State, requestId: string, open: bool, backpressured: bool, transmitted: bool)
    ensures var t := Step(s, Submit(requestId, open, backpressured, transmitted));
            if s.attached && open && s.snapshotReceived && !backpressured && |s.pending| < 128
               && (forall i :: 0 <= i < |s.pending| ==> s.pending[i].requestId != requestId)
            then if transmitted
                 then t == s.(accepted := s.accepted + 1, pending := s.pending + [Pending(requestId, s.accepted)])
                 else t == s.(accepted := s.accepted + 1, settled := s.settled + [s.accepted])
            else t == s
  {
  }

  // ---- What each frame does -----------------------------------------------------------------

  /** Frames of an older socket, or of none, do nothing. */
  lemma OldSocketIsDeaf(s: State, socket: nat, frame: Frame)
    requires !s.attached || socket != s.generation
    ensures Step(s, Receive(socket, frame)) == s && Step(s, SocketClosed(socket)) == s
  {
  }

  /** A new socket has everything of the old state but its snapshot. */
  lemma OpenDecides(s: State)
    ensures Step(s, Open) == s.(generation := s.generation + 1, attached := true, snapshotReceived := false)
  {
  }

  /** Snapshots of this conversation set the cursor and are handed on; after a gap the cursor is
      the frame's; those of another conversation do nothing. */
  lemma SnapshotDecides(s: State, snapshot: Snapshot, after: Option<string>)
    requires s.attached
    ensures Step(s, Receive(s.generation, SnapshotFrame(snapshot))) ==
            if snapshot.conversation == s.conversation
            then s.(snapshotReceived := true, cursor := snapshot.lastEventId,
                    calls := s.calls + [OnSnapshot(snapshot, s.generation)])
            else s
    ensures Step(s, Receive(s.generation, GapFrame(snapshot, after))) ==
            if snapshot.conversation == s.conversation
            then s.(snapshotReceived := true, cursor := after,
                    calls := s.calls + [OnSnapshot(snapshot, s.generation)])
            else s
    ensures Step(s, Receive(s.generation, Subscribed(after))) ==
            if s.snapshotReceived then s.(cursor := after) else s
    ensures Step(s, Receive(s.generation, OtherFrame)) == s
  {
  }

  /** An event is delivered if and only if a snapshot has come on this socket, the id is not in
      the window and the event is of this conversation and session; it then moves the cursor,
      and the window drops its oldest id beyond 2000. */
  lemma EventDecides(s: State, event: Event, matching: bool)
    requires s.attached && |s.seen| <= 2000
    ensures var t := Step(s, Receive(s.generation, EventFrame(event, matching)));
            if s.snapshotReceived && event.id !in s.seen && matching
            then t == s.(cursor := Some(event.id), calls := s.calls + [OnEvent(event, s.generation)],
                         seen := (if |s.seen| < 2000 then s.seen else s.seen[1..]) + [event.id])
            else t == s
  {
  }

  // ---- Deliveries -------------------------------------------------------------------------

  function DeliveredIds(calls: seq<Callback>): seq<string> {
    if calls == [] then []
    else DeliveredIds(calls[..|calls| - 1]) +
         (if calls[|calls| - 1].OnEvent? then [calls[|calls| - 1].event.id] else [])
  }

  /** Two deliveries of one id have at least 2000 others between them. */
  ghost predicate Spaced(ids: seq<string>) {
    forall i, j :: 0 <= i < j < |ids| && ids[i] == ids[j] ==> j - i - 1 >= SEEN_WINDOW
  }

  ghost predicate HasSnapshot(calls: seq<Callback>, socket: nat) {
    exists i :: 0 <= i < |calls| && calls[i].OnSnapshot? && calls[i].socket == socket
  }

  ghost predicate SnapshotFirst(calls: seq<Callback>) {
    forall k :: 0 <= k < |calls| && calls[k].OnEvent? ==> HasSnapshot(calls[..k], calls[k].socket)
  }

  ghost predicate Deduplicated(s: State) {
    && s.seen == LastN(DeliveredIds(s.calls), SEEN_WINDOW)
    && Spaced(DeliveredIds(s.calls))
    && SnapshotFirst(s.calls)
    && (s.snapshotReceived ==> HasSnapshot(s.calls, s.generation))
  }

  lemma SpacedAppend(ids: seq<string>, id: string)
    requires Spaced(ids) && id !in LastN(ids, SEEN_WINDOW)
    ensures Spaced(ids + [id])
  {
    var last := LastN(ids, SEEN_WINDOW);
    forall i | |ids| - |last| <= i < |ids|
      ensures ids[i] in last
    {
      assert last[i - (|ids| - |last|)] == ids[i];
    }
  }

  lemma CallsAppend(calls: seq<Callback>, call: Callback)
    requires SnapshotFirst(calls) && (call.OnEvent? ==> HasSnapshot(calls, call.socket))
    ensures SnapshotFirst(calls + [call])
    ensures forall g :: HasSnapshot(calls, g) || (call.OnSnapshot? && call.socket == g) ==>
              HasSnapshot(calls + [call], g)
    ensures DeliveredIds(calls + [call]) == DeliveredIds(calls) + (if call.OnEvent? then [call.event.id] else [])
  {
    var all := calls + [call];
    assert all[..|calls|] == calls && all[|calls|] == call;
    forall k | 0 <= k < |all| && all[k].OnEvent?
      ensures HasSnapshot(all[..k], all[k].socket)
    {
      if k < |calls| {
        assert all[..k] == calls[..k];
      }
    }
    forall g | HasSnapshot(calls, g) || (call.OnSnapshot? && call.socket == g)
      ensures HasSnapshot(all, g)
    {
      if HasSnapshot(calls, g) {
        var i :| 0 <= i < |calls| && calls[i].OnSnapshot? && calls[i].socket == g;
        assert all[i] == calls[i];
      }
    }
  }

  lemma DeliverKeeps(s: State, event: Event)
    requires Deduplicated(s) && s.snapshotReceived && event.id !in s.seen
    ensures Deduplicated(Deliver(s, event))
  {
    var ids := DeliveredIds(s.calls);
    CallsAppend(s.calls, OnEvent(event, s.generation));
    SpacedAppend(ids, event.id);
    LastNAppend(ids, event.id, SEEN_WINDOW);
  }

  lemma AcceptKeeps(s: State, snapshot: Snapshot)
    requires Deduplicated(s)
    ensures Deduplicated(Accepted(s, snapshot))
  {
    CallsAppend(s.calls, OnSnapshot(snapshot, s.generation));
    assert DeliveredIds(s.calls) + [] == DeliveredIds(s.calls);
  }

  lemma DedupStep(s: State, op: Op)
    requires Deduplicated(s)
    ensures Deduplicated(Step(s, op))
  {
    match op
    case Receive(_, SnapshotFrame(snapshot)) => AcceptKeeps(s, snapshot);
    case Receive(_, GapFrame(snapshot, _)) => AcceptKeeps(s, snapshot);
    case Receive(_, EventFrame(event, _)) =>
      if s.snapshotReceived && event.id !in s.seen { DeliverKeeps(s, event); }
    case _ =>
  }

  /** For every sequence of frames, reconnects and calls: no id is delivered again within
      2000 deliveries, and nothing is delivered on a socket before its snapshot. */
  lemma {:induction false} DeliveriesAreClean(conversation: string, after: Option<string>, ops: seq<Op>)
    ensures Deduplicated(Run(Initial(conversation, after), ops))
  {
    if ops != [] {
      DeliveriesAreClean(conversation, after, ops[..|ops| - 1]);
      DedupStep(Run(Initial(conversation, after), ops[..|ops| - 1]), ops[|ops| - 1]);
    }
  }

  // ---- The client object -------------------------------------------------------------------

  class RealtimeControlClient {
    const conversation: string
    var generation: nat
    var attached: bool
    var snapshotReceived: bool
    var cursor: Option<string>
    var seen: seq<string>
    var pending: seq<Pending>
    var accepted: nat
    ghost var settled: seq<nat>
    ghost var calls: seq<Callback>

    ghost function View(): State
      reads this
    {
      State(conversation, generation, attached, snapshotReceived, cursor, seen, pending, accepted, settled, calls)
    }

    constructor (conversation: string, after: Option<string>)
      ensures View() == Initial(conversation, after)
      ensures View() == State(conversation, 0, false, false, after, [], [], 0, [], [])
    {
      this.conversation := conversation;
      generation, attached, snapshotReceived, cursor := 0, false, false, after;
      seen, pending, accepted, settled, calls := [], [], 0, [], [];
    }

    method Open()
      modifies this
      ensures View() == Step(old(View()), Op.Open)
    {
      generation := generation + 1;
      attached := true;
      snapshotReceived := false;
    }

    method AcceptSnapshot(snapshot: Snapshot) returns (ok: bool)
      modifies this
      ensures ok <==> snapshot.conversation == conversation
      ensures View() == Accepted(old(View()), snapshot)
    {
      ok := snapshot.conversation == conversation;
      if ok {
        snapshotReceived := true;
        cursor := snapshot.lastEventId;
        calls := calls + [OnSnapshot(snapshot, generation)];
      }
    }

    method RejectCommands()
      modifies this
      ensures View() == RejectAll(old(View()))
    {
      ghost var was := pending;
      var i := 0;
      while i < |pending|
        invariant 0 <= i <= |pending| && pending == was
        invariant View() == old(View()).(settled := old(settled) + Commands(was)[..i])
      {
        settled := settled + [pending[i].command];
        i := i + 1;
      }
      assert Commands(was)[..i] == Commands(was);
      pending := [];
    }

    method Receive(socket: nat, frame: Frame)
      modifies this
      ensures View() == Step(old(View()), Op.Receive(socket, frame))
    {
      if !attached || socket != generation {
        return;
      }
      match frame
      case SnapshotFrame(snapshot) =>
        var _ := AcceptSnapshot(snapshot);
      case Subscribed(after) =>
        if snapshotReceived {
          cursor := after;
        }
      case GapFrame(snapshot, after) =>
        var ok := AcceptSnapshot(snapshot);
        if ok {
          cursor := after;
        }
      case EventFrame(event, matching) =>
        if snapshotReceived && event.id !in seen && matching {
          Remember(event.id);
          cursor := Some(event.id);
          calls := calls + [OnEvent(event, generation)];
        }
      case Ack(requestId) =>
        SettleOne(Waiting(pending, requestId));
      case ErrorFrame =>
        RejectCommands();
      case OtherFrame =>
    }

    method Remember(id: string)
      modifies this`seen
      ensures seen == LastN(old(seen) + [id], SEEN_WINDOW)
    {
      seen := seen + [id];
      ghost var all := seen;
      while |seen| > SEEN_WINDOW
        invariant |seen| <= |all| && seen == all[|all| - |seen|..]
        invariant |all| >= SEEN_WINDOW ==> |seen| >= SEEN_WINDOW
        invariant |all| < SEEN_WINDOW ==> seen == all
      {
        seen := seen[1..];
      }
    }

    method SettleOne(i: int)
      requires -1 <= i < |pending|
      modifies this
      ensures View() == if i < 0 then old(View()) else Settle(old(View()), i)
    {
      if i >= 0 {
        settled := settled + [pending[i].command];
        pending := pending[..i] + pending[i + 1..];
      }
    }

    method SocketClosed(socket: nat)
      modifies this
      ensures View() == Step(old(View()), Op.SocketClosed(socket))
    {
      if attached && socket == generation {
        attached := false;
        snapshotReceived := false;
        RejectCommands();
      }
    }

    /** False stands for the exceptions thrown before a command is accepted. */
    method Submit(requestId: string, open: bool, backpressured: bool, transmitted: bool) returns (ok: bool)
      modifies this
      ensures View() == Step(old(View()), Op.Submit(requestId, open, backpressured, transmitted))
      ensures ok <==> accepted == old(accepted) + 1
    {
      ok := false;
      if !attached || !open || !snapshotReceived || backpressured {
        return;
      }
      if |pending| >= MAX_PENDING || Waiting(pending, requestId) >= 0 {
        return;
      }
      var command := Pending(requestId, accepted);
      accepted := accepted + 1;
      if transmitted {
        pending := pending + [command];
      } else {
        settled := settled + [command.command];
      }
      ok := true;
    }

    method TimeOut(waiting: Pending)
      modifies this
      ensures View() == Step(old(View()), Op.TimeOut(waiting))
    {
      var i := Waiting(pending, waiting.requestId);
      if i >= 0 && pending[i] == waiting {
        SettleOne(i);
      }
    }

    method Close()
      modifies this
      ensures View() == Step(old(View()), Op.CloseByOwner)
    {
      generation := generation + 1;
      attached := false;
      snapshotReceived := false;
      RejectCommands();
    }
  }
}
