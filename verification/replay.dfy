/** The server side of the replay channel (backend/voice_console/realtime/socket.py):
    an initial snapshot, then a polling loop that forwards the events after its cursor,
    rebasing on a new snapshot when the cursor has expired. Every await is a step;
    the durable log grows and expires in between. */
module Replay {
  import opened Options
  import opened Projection

  datatype Wire =
    | SnapshotFrame(cursor: Option<string>)
    | GapFrame(cursor: Option<string>)
    | EventFrame(event: Event)
    | OtherFrame  // subscribed, pong, heartbeat, ack and error frames

  datatype Server = Server(
    cursor: Option<string>,
    batch: seq<Event>,     // events of the current poll that are still to be sent
    recovering: bool,      // a gap was reported and the new snapshot is awaited
    stopped: bool,
    closed: bool,
    sent: seq<Wire>)

  /** `log` is everything ever recorded; its first `expired` events are no longer retained. */
  datatype World = World(log: seq<Event>, expired: nat, server: Server)

  datatype Op =
    | Append(event: Event)
    | Expire(count: nat)
    | Poll(upTo: nat)
    | PollFails
    | SendNext
    | Recover(at: Option<nat>)
    | RecoverFails
    | SendOther
    | Close

  function Find(log: seq<Event>, id: string): (at: Option<nat>)
    ensures at.Some? ==> at.value < |log| && log[at.value].id == id
    ensures at.None? ==> forall i :: 0 <= i < |log| ==> log[i].id != id
  {
    if log == [] then None
    else if log[|log| - 1].id == id then Some(|log| - 1)
    else Find(log[..|log| - 1], id)
  }

  ghost predicate Distinct(log: seq<Event>) {
    forall i, j :: 0 <= i < j < |log| ==> log[i].id != log[j].id
  }

  function Clamp(lo: nat, x: nat, hi: nat): (r: nat)
    requires lo <= hi
    ensures lo <= r <= hi
  {
    if x < lo then lo else if x > hi then hi else x
  }

  function Emit(s: Server, frame: Wire): Server {
    if s.closed then s else s.(sent := s.sent + [frame])
  }

  predicate Idle(s: Server) {
    s.batch == [] && !s.recovering && !s.stopped && !s.closed
  }

  /** What Hermes answers for a cursor: any run of retained events right after it, or a
      gap when the cursor itself is no longer retained. */
  function Answer(w: World, upTo: nat): Option<seq<Event>>
    requires w.expired <= |w.log|
  {
    match w.server.cursor
    case None => Some(w.log[w.expired..Clamp(w.expired, upTo, |w.log|)])
    case Some(id) =>
      var at := Find(w.log, id);
      if at.None? || at.value < w.expired then None
      else Some(w.log[at.value + 1..Clamp(at.value + 1, upTo, |w.log|)])
  }

  function Step(w: World, op: Op): World
    requires w.expired <= |w.log|
  {
    var s := w.server;
    match op
    case Append(e) => if Find(w.log, e.id).None? then w.(log := w.log + [e]) else w
    case Expire(n) => w.(expired := Clamp(w.expired, n, |w.log|))
    case Poll(upTo) =>
      if !Idle(s) then w
      else (match Answer(w, upTo)
            case None => w.(server := s.(recovering := true))
            case Some(events) => w.(server := s.(batch := events)))
    case PollFails => if Idle(s) then w.(server := Emit(s, OtherFrame).(stopped := true)) else w
    case SendNext =>
      if s.batch == [] then w
      else
        var rest := s.batch[1..];
        w.(server := Emit(s, EventFrame(s.batch[0])).(
             batch := rest, cursor := if rest == [] then Some(s.batch[0].id) else s.cursor))
    case Recover(at) =>
      if !s.recovering || (at.Some? && at.value >= |w.log|) then w
      else
        var cursor := if at.Some? then Some(w.log[at.value].id) else None;
        w.(server := Emit(s.(cursor := cursor, recovering := false), GapFrame(cursor)))
    case RecoverFails => if s.recovering then w.(server := s.(recovering := false, stopped := true)) else w
    case SendOther => w.(server := Emit(s, OtherFrame))
    case Close => w.(server := s.(closed := true))
  }

  lemma ExpiredStaysInLog(w: World, op: Op)
    requires w.expired <= |w.log|
    ensures Step(w, op).expired <= |Step(w, op).log| && w.log <= Step(w, op).log
  {
  }

  ghost function Run(w: World, ops: seq<Op>): (r: World)
    requires w.expired <= |w.log|
    ensures r.expired <= |r.log| && w.log <= r.log
  {
    if ops == [] then w
    else
      ExpiredStaysInLog(Run(w, ops[..|ops| - 1]), ops[|ops| - 1]);
      Step(Run(w, ops[..|ops| - 1]), ops[|ops| - 1])
  }

  /** The first thing sent is a snapshot; the loop starts from its cursor. */
  ghost predicate JustSubscribed(w: World) {
    && w.expired <= |w.log| && Distinct(w.log)
    && w.server == Server(w.server.cursor, [], false, false, false, [SnapshotFrame(w.server.cursor)])
    && (w.server.cursor.Some? ==> Find(w.log, w.server.cursor.value).Some?)
  }

  // ---- What the frames must say ----------------------------------------------------

  predicate Carries(frame: Wire) {
    frame.SnapshotFrame? || frame.GapFrame?
  }

  /** The cursor of the last snapshot sent, and the events sent since. */
  ghost function LastCursor(sent: seq<Wire>): Option<string> {
    if sent == [] then None
    else if Carries(sent[|sent| - 1]) then sent[|sent| - 1].cursor
    else LastCursor(sent[..|sent| - 1])
  }

  function Since(sent: seq<Wire>): seq<Event> {
    if sent == [] || Carries(sent[|sent| - 1]) then []
    else if sent[|sent| - 1].EventFrame? then Since(sent[..|sent| - 1]) + [sent[|sent| - 1].event]
    else Since(sent[..|sent| - 1])
  }

  /** Everything sent since the last snapshot is the log right after that snapshot's cursor. */
  ghost predicate Faithful(log: seq<Event>, sent: seq<Wire>) {
    LastCursor(sent).Some? ==>
      var at := Find(log, LastCursor(sent).value);
      && at.Some? && at.value + 1 + |Since(sent)| <= |log|
      && Since(sent) == log[at.value + 1..at.value + 1 + |Since(sent)|]
  }

  /** What is still to be sent continues the log, and an idle cursor is the last event sent. */
  ghost predicate OnTrack(w: World) {
    && (w.server.recovering || w.server.stopped ==> w.server.batch == [])
    && (LastCursor(w.server.sent).Some? && !w.server.closed ==>
      var at := Find(w.log, LastCursor(w.server.sent).value);
      && at.Some?
      && var next := at.value + 1 + |Since(w.server.sent)|;
      && next + |w.server.batch| <= |w.log|
      && w.server.batch == w.log[next..next + |w.server.batch|]
      && (w.server.batch == [] ==> w.server.cursor == Some(w.log[next - 1].id)))
  }

  lemma FindAt(log: seq<Event>, i: nat)
    requires Distinct(log) && i < |log|
    ensures Find(log, log[i].id) == Some(i)
  {
  }

  lemma FindGrows(log: seq<Event>, more: seq<Event>, id: string)
    requires Distinct(log + more) && Find(log, id).Some?
    ensures Find(log + more, id) == Find(log, id)
  {
    assert (log + more)[Find(log, id).value].id == id;
  }

  ghost predicate Good(w: World) {
    && w.expired <= |w.log| && Distinct(w.log)
    && Faithful(w.log, w.server.sent) && OnTrack(w)
  }

  lemma FaithfulGrows(log: seq<Event>, more: seq<Event>, sent: seq<Wire>)
    requires Distinct(log + more) && Faithful(log, sent)
    ensures Faithful(log + more, sent)
  {
    if LastCursor(sent).Some? {
      FindGrows(log, more, LastCursor(sent).value);
    }
  }

  lemma TrackGrows(w: World, e: Event)
    requires Distinct(w.log + [e]) && OnTrack(w)
    ensures OnTrack(w.(log := w.log + [e]))
  {
    if LastCursor(w.server.sent).Some? && !w.server.closed {
      FindGrows(w.log, [e], LastCursor(w.server.sent).value);
    }
  }

  lemma AppendKeeps(w: World, e: Event)
    requires Good(w) && Find(w.log, e.id).None?
    ensures Good(w.(log := w.log + [e]))
  {
    FaithfulGrows(w.log, [e], w.server.sent);
    TrackGrows(w, e);
  }

  /** An idle loop asks for, and gets, what follows the last event it sent. */
  lemma AnswerContinues(w: World, upTo: nat, at: nat)
    requires Good(w) && Idle(w.server) && LastCursor(w.server.sent).Some?
    requires Find(w.log, LastCursor(w.server.sent).value) == Some(at)
    ensures var next := at + 1 + |Since(w.server.sent)|;
            && next <= |w.log|
            && (Answer(w, upTo).Some? ==>
                  && next + |Answer(w, upTo).value| <= |w.log|
                  && Answer(w, upTo).value == w.log[next..next + |Answer(w, upTo).value|])
  {
    FindAt(w.log, at + |Since(w.server.sent)|);
  }

  lemma PollKeeps(w: World, upTo: nat)
    requires Good(w) && Idle(w.server)
    ensures Good(Step(w, Poll(upTo)))
  {
    if LastCursor(w.server.sent).Some? {
      AnswerContinues(w, upTo, Find(w.log, LastCursor(w.server.sent).value).value);
    }
    if Answer(w, upTo).Some? {
      BatchKeeps(w, Answer(w, upTo).value);
    } else {
      GapKeeps(w);
    }
  }

  lemma GapKeeps(w: World)
    requires Good(w) && Idle(w.server)
    ensures Good(w.(server := w.server.(recovering := true)))
  {
  }

  lemma BatchKeeps(w: World, events: seq<Event>)
    requires Good(w) && Idle(w.server)
    requires LastCursor(w.server.sent).Some? ==>
               var next := Find(w.log, LastCursor(w.server.sent).value).value + 1 + |Since(w.server.sent)|;
               next + |events| <= |w.log| && events == w.log[next..next + |events|]
    ensures Good(w.(server := w.server.(batch := events)))
  {
  }

  /** A page without events leaves the loop on track if and only if its last_event_id is the
      cursor it was asked for (or none). */
  lemma EmptyPageIff(w: World, id: string)
    requires Good(w) && Idle(w.server) && LastCursor(w.server.sent).Some?
    ensures Good(w.(server := w.server.(cursor := Some(id)))) <==> w.server.cursor == Some(id)
  {
    assert w.server.(cursor := Some(id)).sent == w.server.sent;
  }

  lemma EventExtends(log: seq<Event>, sent: seq<Wire>, e: Event)
    ensures LastCursor(sent + [EventFrame(e)]) == LastCursor(sent)
    ensures Since(sent + [EventFrame(e)]) == Since(sent) + [e]
  {
    assert (sent + [EventFrame(e)])[..|sent|] == sent;
  }

  lemma SendKeeps(w: World)
    requires Good(w) && w.server.batch != []
    ensures Good(Step(w, SendNext))
  {
    var s := w.server;
    EventExtends(w.log, s.sent, s.batch[0]);
    if LastCursor(s.sent).Some? && !s.closed {
      var next := Find(w.log, LastCursor(s.sent).value).value + 1 + |Since(s.sent)|;
      assert s.batch[0] == w.log[next];
      assert s.batch[1..] == w.log[next + 1..next + |s.batch|];
    }
  }

  lemma SnapshotKeeps(w: World, at: Option<nat>)
    requires Good(w)
    ensures Good(Step(w, Recover(at)))
  {
    if at.Some? && at.value < |w.log| {
      FindAt(w.log, at.value);
    }
  }

  /** A frame that carries neither an event nor a snapshot changes nothing that matters. */
  lemma QuietChange(w: World, t: Server)
    requires Good(w) && t == w.server.(sent := t.sent, stopped := t.stopped)
    requires LastCursor(t.sent) == LastCursor(w.server.sent) && Since(t.sent) == Since(w.server.sent)
    requires t.stopped ==> t.batch == []
    ensures Good(w.(server := t))
  {
  }

  lemma OtherFrameKeeps(w: World, op: Op)
    requires Good(w) && (op.SendOther? || (op.PollFails? && Idle(w.server)))
    ensures Good(Step(w, op))
  {
    OtherIsSilent(w.server.sent);
    QuietChange(w, Step(w, op).server);
  }

  lemma SilentStepKeeps(w: World, op: Op)
    requires Good(w) && (op.RecoverFails? || op.Close? || op.Expire?)
    ensures Good(Step(w, op))
  {
  }

  lemma OtherIsSilent(sent: seq<Wire>)
    ensures LastCursor(sent + [OtherFrame]) == LastCursor(sent)
    ensures Since(sent + [OtherFrame]) == Since(sent)
  {
    assert (sent + [OtherFrame])[..|sent|] == sent;
  }

  lemma {:induction false} ReplayIsFaithful(w: World, ops: seq<Op>)
    requires JustSubscribed(w)
    ensures Good(Run(w, ops))
  {
    if ops != [] {
      var init, op := ops[..|ops| - 1], ops[|ops| - 1];
      ReplayIsFaithful(w, init);
      var before := Run(w, init);
      match op
      case Append(e) => if Find(before.log, e.id).None? { AppendKeeps(before, e); }
      case Poll(upTo) => if Idle(before.server) { PollKeeps(before, upTo); }
      case SendNext => if before.server.batch != [] { SendKeeps(before); }
      case Recover(at) => SnapshotKeeps(before, at);
      case SendOther => OtherFrameKeeps(before, op);
      case PollFails => if Idle(before.server) { OtherFrameKeeps(before, op); }
      case _ => SilentStepKeeps(before, op);
    } else if w.server.cursor.Some? {
      assert w.server.sent[..0] == [];
    }
  }

  lemma SentGrows(w: World, op: Op)
    requires w.expired <= |w.log|
    ensures w.server.sent <= Step(w, op).server.sent
    ensures |Step(w, op).server.sent| <= |w.server.sent| + 1
  {
  }

  /** Whatever is appended, expired, closed or rebased between polls: at every point of
      the frame stream, the events sent since the last snapshot-carrying frame are
      exactly the slice of the log right after that snapshot's cursor, once and in order. */
  lemma {:induction false} EventsAreLogSlice(w: World, ops: seq<Op>, k: nat)
    requires JustSubscribed(w) && 1 <= k <= |Run(w, ops).server.sent|
    ensures Faithful(Run(w, ops).log, Run(w, ops).server.sent[..k])
  {
    ReplayIsFaithful(w, ops);
    var sent := Run(w, ops).server.sent;
    if k == |sent| {
      assert sent[..k] == sent;
    } else {
      var init := ops[..|ops| - 1];
      var before := Run(w, init);
      SentGrows(before, ops[|ops| - 1]);
      ExpiredStaysInLog(before, ops[|ops| - 1]);
      EventsAreLogSlice(w, init, k);
      assert sent[..k] == before.server.sent[..k];
      var log := Run(w, ops).log;
      FaithfulGrows(before.log, log[|before.log|..], sent[..k]);
      assert before.log + log[|before.log|..] == log;
    }
  }

  // ---- Progress ---------------------------------------------------------------------------

  ghost function Repeat(op: Op, n: nat): seq<Op> {
    seq(n, _ => op)
  }

  lemma RunAgain(w: World, op: Op, n: nat)
    requires w.expired <= |w.log|
    ensures Run(w, Repeat(op, n + 1)) == Step(Run(w, Repeat(op, n)), op)
  {
    var ops := Repeat(op, n + 1);
    assert ops[|ops| - 1] == op;
    assert ops[..|ops| - 1] == Repeat(op, n);
  }

  /** A poll finds a gap if and only if the cursor's event is no longer retained, or never was. */
  lemma GapIff(w: World, upTo: nat)
    requires w.expired <= |w.log| && Idle(w.server)
    ensures Step(w, Poll(upTo)).server.recovering <==>
              w.server.cursor.Some? && forall i :: w.expired <= i < |w.log| ==> w.log[i].id != w.server.cursor.value
    ensures Step(w, Poll(upTo)).server.sent == w.server.sent && Step(w, Poll(upTo)).log == w.log
  {
    if w.server.cursor.Some? {
      var at := Find(w.log, w.server.cursor.value);
      if i :| w.expired <= i < |w.log| && w.log[i].id == w.server.cursor.value {
        FindIsLast(w.log, i);
      }
    }
  }

  lemma FindIsLast(log: seq<Event>, i: nat)
    requires i < |log|
    ensures Find(log, log[i].id).Some? && Find(log, log[i].id).value >= i
  {
    if log[|log| - 1].id != log[i].id {
      assert log[..|log| - 1][i] == log[i];
      FindIsLast(log[..|log| - 1], i);
    }
  }

  /** A poll fetches the events after the cursor, as many as Hermes gives; without a cursor, the
      retained ones. */
  lemma PollFetches(w: World, at: nat, upTo: nat)
    requires w.expired <= |w.log| && Distinct(w.log) && Idle(w.server)
    requires w.expired <= at < |w.log| && at < upTo <= |w.log|
    ensures w.server.cursor == Some(w.log[at].id) ==>
              Step(w, Poll(upTo)) == w.(server := w.server.(batch := w.log[at + 1..upTo]))
    ensures w.server.cursor.None? ==>
              Step(w, Poll(upTo)) == w.(server := w.server.(batch := w.log[w.expired..upTo]))
  {
    FindAt(w.log, at);
  }

  /** The frames of a batch. */
  ghost function Frames(events: seq<Event>): seq<Wire> {
    seq(|events|, i requires 0 <= i < |events| => EventFrame(events[i]))
  }

  /** Sending a batch: each event once and in order, and then the cursor is the last one. */
  lemma {:induction false} BatchIsSent(w: World, n: nat)
    requires w.expired <= |w.log| && n <= |w.server.batch| && !w.server.closed
    ensures var t := Run(w, Repeat(SendNext, n));
            && t == w.(server := w.server.(batch := w.server.batch[n..], sent := w.server.sent + Frames(w.server.batch[..n]),
                                           cursor := t.server.cursor))
            && t.server.cursor == (if 0 < n == |w.server.batch| then Some(w.server.batch[n - 1].id) else w.server.cursor)
  {
    if n == 0 {
      assert Repeat(SendNext, 0) == [] && w.server.sent + Frames([]) == w.server.sent;
    } else {
      BatchIsSent(w, n - 1);
      RunAgain(w, SendNext, n - 1);
      var batch := w.server.batch;
      assert batch[n - 1..][1..] == batch[n..];
      assert Frames(batch[..n]) == Frames(batch[..n - 1]) + [EventFrame(batch[n - 1])];
      assert w.server.sent + Frames(batch[..n]) == w.server.sent + Frames(batch[..n - 1]) + [EventFrame(batch[n - 1])];
    }
  }

  /** The loop catches up: when the cursor is retained and Hermes gives all it has, one poll
      and its sends bring the client everything after the cursor, and the cursor to the end. */
  lemma PollCatchesUp(w: World, at: nat)
    requires w.expired <= at < |w.log| && Distinct(w.log) && Idle(w.server)
    requires w.server.cursor == Some(w.log[at].id)
    ensures var t := Run(Step(w, Poll(|w.log|)), Repeat(SendNext, |w.log| - at - 1));
            && t.server.sent == w.server.sent + Frames(w.log[at + 1..])
            && t.server.cursor == Some(w.log[|w.log| - 1].id) && Idle(t.server)
  {
    PollFetches(w, at, |w.log|);
    var polled := Step(w, Poll(|w.log|));
    assert polled.server.batch == w.log[at + 1..];
    BatchIsSent(polled, |w.log| - at - 1);
    assert polled.server.batch[..|w.log| - at - 1] == polled.server.batch;
  }

  /** A gap is answered with the snapshot that is then read: its cursor is sent, and polled
      from. Another failure is reported and ends the loop, as a failed recovery does unreported. */
  lemma RecoveryDecides(w: World, at: Option<nat>)
    requires w.expired <= |w.log| && w.server.recovering && !w.server.closed
    requires at.Some? ==> at.value < |w.log|
    ensures var cursor := if at.Some? then Some(w.log[at.value].id) else None;
            Step(w, Recover(at)) == w.(server := w.server.(cursor := cursor, recovering := false,
                                                           sent := w.server.sent + [GapFrame(cursor)]))
    ensures Step(w, RecoverFails) == w.(server := w.server.(recovering := false, stopped := true))
  {
  }

  lemma FailureDecides(w: World)
    requires w.expired <= |w.log| && Idle(w.server)
    ensures Step(w, PollFails) == w.(server := w.server.(stopped := true, sent := w.server.sent + [OtherFrame]))
    ensures Step(w, SendOther) == w.(server := w.server.(sent := w.server.sent + [OtherFrame]))
    ensures Step(w, Close) == w.(server := w.server.(closed := true))
  {
  }

  /** A closed socket is sent nothing, and a stopped loop polls no more. */
  lemma ClosedIsSilent(w: World, op: Op)
    requires w.expired <= |w.log|
    ensures w.server.closed ==> Step(w, op).server.sent == w.server.sent && Step(w, op).server.closed
    ensures w.server.stopped && (op.Poll? || op.PollFails?) ==> Step(w, op) == w
  {
  }

  /** The log grows at its end, by new ids; what expires are its oldest events. */
  lemma LogDecides(w: World, e: Event, n: nat)
    requires w.expired <= |w.log|
    ensures Step(w, Append(e)) ==
            if exists i :: 0 <= i < |w.log| && w.log[i].id == e.id then w else w.(log := w.log + [e])
    ensures Step(w, Expire(n)) == w.(expired := if n < w.expired then w.expired else if n > |w.log| then |w.log| else n)
  {
  }

  // ---- The socket handler ----------------------------------------------------------

  class ReplaySocket {
    var cursor: Option<string>
    var recovering: bool
    var stopped: bool
    var closed: bool
    var outbox: seq<Wire>

    ghost function View(batch: seq<Event>): Server
      reads this
    {
      Server(cursor, batch, recovering, stopped, closed, outbox)
    }

    constructor (snapshotCursor: Option<string>)
      ensures View([]) == Server(snapshotCursor, [], false, false, false, [SnapshotFrame(snapshotCursor)])
    {
      cursor, recovering, stopped, closed := snapshotCursor, false, false, false;
      outbox := [SnapshotFrame(snapshotCursor)];
    }

    method Send(frame: Wire)
      modifies this`outbox
      ensures outbox == if closed then old(outbox) else old(outbox) + [frame]
    {
      if !closed {
        outbox := outbox + [frame];
      }
    }

    /** A poll that found the cursor: forward its events, then advance the cursor. */
    method Forward(events: seq<Event>, lastEventId: Option<string>, ghost w: World)
      requires w.expired <= |w.log| && w.server == View(events)
      requires events != [] ==> lastEventId == Some(events[|events| - 1].id)
      modifies this
      ensures View([]) == Run(w, Repeat(SendNext, |events|)).server.(cursor := cursor)
      ensures cursor == if lastEventId.Some? then lastEventId else old(cursor)
      ensures events != [] || lastEventId.None? || lastEventId == old(cursor) ==>
                View([]) == Run(w, Repeat(SendNext, |events|)).server
    {
      var i := 0;
      ghost var now := w;
      while i < |events|
        invariant 0 <= i <= |events| && now == Run(w, Repeat(SendNext, i))
        invariant now.server == View(events[i..]).(cursor := now.server.cursor)
        invariant now.server.cursor == if 0 < i == |events| then lastEventId else cursor
      {
        Send(EventFrame(events[i]));
        RunAgain(w, SendNext, i);
        now := Step(now, SendNext);
        i := i + 1;
      }
      cursor := if lastEventId.Some? then lastEventId else cursor;
    }

    /** The gap answer: rebase on a fresh snapshot. */
    method Rebase(at: Option<nat>, ghost w: World, snapshotCursor: Option<string>)
      requires w.expired <= |w.log| && w.server == View([]) && recovering
      requires at.Some? ==> at.value < |w.log| && snapshotCursor == Some(w.log[at.value].id)
      requires at.None? ==> snapshotCursor.None?
      modifies this
      ensures View([]) == Step(w, Recover(at)).server
    {
      recovering := false;
      cursor := snapshotCursor;
      Send(GapFrame(cursor));
    }

    method FailPoll(ghost w: World)
      requires w.expired <= |w.log| && w.server == View([]) && Idle(w.server)
      modifies this
      ensures View([]) == Step(w, PollFails).server
    {
      Send(OtherFrame);
      stopped := true;
    }
  }
}
