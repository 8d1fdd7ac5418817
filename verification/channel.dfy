/** The replay channel end to end: server loop, client dedupe window and event reducer
    together show the fold of the durable log after the last snapshot. */
module Channel {
  import opened Options
  import opened Sequences
  import opened Projection
  import R = Replay
  import C = ControlClient

  /** What the page shows: callbacks drive the reducer, and a snapshot replaces everything. */
  function Show(view: View, calls: seq<C.Callback>): View {
    if calls == [] then view
    else match calls[|calls| - 1]
      case OnSnapshot(snapshot, _) => ProjectSnapshot(snapshot)
      case OnEvent(event, _) => ProjectEvent(Show(view, calls[..|calls| - 1]), event)
  }

  /** The client frame a wire frame without a snapshot arrives as. */
  ghost predicate ArrivesAs(wire: R.Wire, frame: C.Frame) {
    match wire
    case EventFrame(event) => frame == C.EventFrame(event, true)
    case OtherFrame => frame.Subscribed? || frame.Ack? || frame.ErrorFrame? || frame.OtherFrame?
    case _ => false
  }

  /** The wire frames arrive in order on the current socket, with commands in between. */
  ghost predicate Arrives(ops: seq<C.Op>, wires: seq<R.Wire>, socket: nat) {
    if ops == [] then wires == []
    else if ops[|ops| - 1].Submit? || ops[|ops| - 1].TimeOut? then Arrives(ops[..|ops| - 1], wires, socket)
    else
      && wires != [] && ops[|ops| - 1].Receive? && ops[|ops| - 1].socket == socket
      && ArrivesAs(wires[|wires| - 1], ops[|ops| - 1].frame)
      && Arrives(ops[..|ops| - 1], wires[..|wires| - 1], socket)
  }

  /** The events the dedupe window lets through. */
  ghost function Heard(seen: seq<string>, events: seq<Event>): seq<Event> {
    if events == [] then []
    else
      var heard, last := Heard(seen, events[..|events| - 1]), events[|events| - 1];
      if last.id in LastN(seen + Ids(heard), SEEN_WINDOW) then heard else heard + [last]
  }

  function Calls(events: seq<Event>, socket: nat): seq<C.Callback> {
    seq(|events|, i requires 0 <= i < |events| => C.OnEvent(events[i], socket))
  }

  ghost predicate Listening(s: C.State) {
    s.attached && s.snapshotReceived && |s.seen| <= SEEN_WINDOW
  }

  /** The state of a listening client after the events it let through. */
  ghost predicate HasHeard(s: C.State, t: C.State, heard: seq<Event>) {
    && Listening(t) && t.generation == s.generation
    && t.seen == LastN(s.seen + Ids(heard), SEEN_WINDOW)
    && t.calls == s.calls + Calls(heard, s.generation)
  }

  lemma HearOne(s: C.State, t: C.State, heard: seq<Event>, event: Event)
    requires HasHeard(s, t, heard) && event.id !in t.seen
    ensures HasHeard(s, C.Deliver(t, event), heard + [event])
  {
    assert Ids(heard + [event]) == Ids(heard) + [event.id];
    assert s.seen + Ids(heard + [event]) == s.seen + Ids(heard) + [event.id];
    LastNAppend(s.seen + Ids(heard), event.id, SEEN_WINDOW);
    assert Calls(heard + [event], s.generation) == Calls(heard, s.generation) + [C.OnEvent(event, s.generation)];
  }

  lemma CommandsHearNothing(s: C.State, t: C.State, heard: seq<Event>, op: C.Op)
    requires HasHeard(s, t, heard) && (op.Submit? || op.TimeOut?)
    ensures HasHeard(s, C.Step(t, op), heard)
  {
  }

  lemma FrameHeard(s: C.State, t: C.State, since: seq<Event>, wire: R.Wire, frame: C.Frame)
    requires HasHeard(s, t, Heard(s.seen, since)) && ArrivesAs(wire, frame)
    ensures HasHeard(s, C.OnFrame(t, frame),
                     Heard(s.seen, if wire.EventFrame? then since + [wire.event] else since))
  {
    if wire.EventFrame? {
      assert (since + [wire.event])[..|since|] == since;
      if wire.event.id !in t.seen {
        HearOne(s, t, Heard(s.seen, since), wire.event);
      }
    }
  }

  lemma {:induction false} ClientHears(s: C.State, ops: seq<C.Op>, wires: seq<R.Wire>)
    requires Listening(s) && Arrives(ops, wires, s.generation)
    ensures HasHeard(s, C.Run(s, ops), Heard(s.seen, R.Since(wires)))
  {
    if ops == [] {
      assert s.seen + Ids([]) == s.seen && s.calls + Calls([], s.generation) == s.calls;
    } else {
      var init, op := ops[..|ops| - 1], ops[|ops| - 1];
      if op.Submit? || op.TimeOut? {
        ClientHears(s, init, wires);
        CommandsHearNothing(s, C.Run(s, init), Heard(s.seen, R.Since(wires)), op);
      } else {
        var before, wire := wires[..|wires| - 1], wires[|wires| - 1];
        ClientHears(s, init, before);
        FrameHeard(s, C.Run(s, init), R.Since(before), wire, op.frame);
      }
    }
  }

  lemma {:induction false} ShowCalls(view: View, calls: seq<C.Callback>, events: seq<Event>, socket: nat)
    ensures Show(view, calls + Calls(events, socket)) == Fold(Show(view, calls), events)
  {
    if events == [] {
      assert calls + Calls(events, socket) == calls;
    } else {
      var init, last := events[..|events| - 1], events[|events| - 1];
      var before := calls + Calls(init, socket);
      CallsNext(calls, events, socket);
      ShowEvent(view, before, last, socket);
      ShowCalls(view, calls, init, socket);
    }
  }

  lemma CallsNext(calls: seq<C.Callback>, events: seq<Event>, socket: nat)
    requires events != []
    ensures calls + Calls(events, socket)
         == calls + Calls(events[..|events| - 1], socket) + [C.OnEvent(events[|events| - 1], socket)]
  {
  }

  lemma ShowEvent(view: View, calls: seq<C.Callback>, event: Event, socket: nat)
    ensures Show(view, calls + [C.OnEvent(event, socket)]) == ProjectEvent(Show(view, calls), event)
  {
    var all := calls + [C.OnEvent(event, socket)];
    assert all[..|all| - 1] == calls;
  }

  lemma {:induction false} HeardIsShorter(seen: seq<string>, events: seq<Event>)
    ensures |Heard(seen, events)| <= |events|
  {
    if events != [] {
      HeardIsShorter(seen, events[..|events| - 1]);
    }
  }

  lemma HearsAllNext(seen: seq<string>, init: seq<Event>, last: Event, heard: seq<Event>)
    requires |heard| <= |init|
    ensures heard != init + [last]
    ensures heard + [last] == init + [last] <==> heard == init
  {
    assert heard == (heard + [last])[..|heard|];
    assert init == (init + [last])[..|init|];
  }

  /** Nothing is dropped if and only if every event is outside the window as it is when the
      event arrives. */
  lemma {:induction false} HeardAllIff(seen: seq<string>, events: seq<Event>)
    ensures Heard(seen, events) == events <==> AllNew(seen, events)
  {
    if events != [] {
      var init, last := events[..|events| - 1], events[|events| - 1];
      HeardAllIff(seen, init);
      HeardIsShorter(seen, init);
      AllNewNext(seen, events);
      HearsAllNext(seen, init, last, Heard(seen, init));
      assert events == init + [last];
    }
  }

  /** In particular when the ids are distinct and none of them is in the window at first. */
  lemma FreshIsNew(seen: seq<string>, events: seq<Event>)
    requires R.Distinct(events)
    requires forall i :: 0 <= i < |events| ==> events[i].id !in seen
    ensures Heard(seen, events) == events
  {
    HeardAllIff(seen, events);
    forall k | 0 <= k < |events|
      ensures NewAfter(seen, events[..k], events[k])
    {
      NotInWindow(seen, events[..k], events[k].id);
    }
  }

  lemma NotInWindow(seen: seq<string>, events: seq<Event>, id: string)
    requires id !in seen && forall i :: 0 <= i < |events| ==> events[i].id != id
    ensures id !in LastN(seen + Ids(events), SEEN_WINDOW)
  {
    var all := seen + Ids(events);
    forall k | 0 <= k < |all|
      ensures all[k] != id
    {
      assert k >= |seen| ==> all[k] == events[k - |seen|].id;
    }
  }

  lemma {:induction false} SinceFromSnapshot(sent: seq<R.Wire>, j: nat)
    requires j < |sent| && R.Carries(sent[j])
    requires forall i :: j < i < |sent| ==> !R.Carries(sent[i])
    ensures R.LastCursor(sent) == sent[j].cursor && R.Since(sent) == R.Since(sent[j + 1..])
  {
    if j + 1 < |sent| {
      SinceFromSnapshot(sent[..|sent| - 1], j);
      assert sent[j + 1..][..|sent| - j - 2] == sent[..|sent| - 1][j + 1..];
    }
  }

  /** `slice` is the log right after the snapshot's cursor. */
  ghost predicate FollowsCursor(log: seq<Event>, cursor: Option<string>, slice: seq<Event>) {
    cursor.Some? &&
    var at := R.Find(log, cursor.value);
    at.Some? && at.value + 1 + |slice| <= |log| && slice == log[at.value + 1..at.value + 1 + |slice|]
  }

  lemma SliceFollows(log: seq<Event>, sent: seq<R.Wire>, j: nat)
    requires j < |sent| && R.Carries(sent[j]) && sent[j].cursor.Some?
    requires forall i :: j < i < |sent| ==> !R.Carries(sent[i])
    requires R.Distinct(log) && R.Faithful(log, sent)
    ensures FollowsCursor(log, sent[j].cursor, R.Since(sent[j + 1..]))
    ensures R.Distinct(R.Since(sent[j + 1..]))
  {
    SinceFromSnapshot(sent, j);
  }

  lemma PageShows(s: C.State, snapshot: Snapshot, clientOps: seq<C.Op>, wires: seq<R.Wire>)
    requires Listening(s) && s.calls != [] && s.calls[|s.calls| - 1] == C.OnSnapshot(snapshot, s.generation)
    requires Arrives(clientOps, wires, s.generation)
    ensures Show(EMPTY_VIEW, C.Run(s, clientOps).calls)
         == Fold(ProjectSnapshot(snapshot), Heard(s.seen, R.Since(wires)))
  {
    ClientHears(s, clientOps, wires);
    ShowCalls(EMPTY_VIEW, s.calls, Heard(s.seen, R.Since(wires)), s.generation);
  }

  /** From the moment a snapshot with a cursor is accepted, and whatever the log, the
      expiry, the polls and the commands do: the events received are the slice of the log
      after that cursor, the page shows the snapshot's projection folded over those the
      window lets through, and that is the whole slice if and only if each of its events is
      outside the window when it arrives. `prefix` is the frames sent so far, frame j the snapshot's. */
  lemma PageShowsLog(w: R.World, serverOps: seq<R.Op>, prefix: seq<R.Wire>, j: nat,
                     s: C.State, snapshot: Snapshot, clientOps: seq<C.Op>)
    requires R.JustSubscribed(w) && prefix <= R.Run(w, serverOps).server.sent
    requires j < |prefix| && R.Carries(prefix[j]) && prefix[j].cursor == snapshot.lastEventId
    requires forall i :: j < i < |prefix| ==> !R.Carries(prefix[i])
    requires snapshot.lastEventId.Some? && Listening(s)
    requires s.calls != [] && s.calls[|s.calls| - 1] == C.OnSnapshot(snapshot, s.generation)
    requires Arrives(clientOps, prefix[j + 1..], s.generation)
    ensures FollowsCursor(R.Run(w, serverOps).log, snapshot.lastEventId, R.Since(prefix[j + 1..]))
    ensures Show(EMPTY_VIEW, C.Run(s, clientOps).calls)
         == Fold(ProjectSnapshot(snapshot), Heard(s.seen, R.Since(prefix[j + 1..])))
    ensures Heard(s.seen, R.Since(prefix[j + 1..])) == R.Since(prefix[j + 1..])
       <==> AllNew(s.seen, R.Since(prefix[j + 1..]))
  {
    var world := R.Run(w, serverOps);
    R.EventsAreLogSlice(w, serverOps, |prefix|);
    assert world.server.sent[..|prefix|] == prefix;
    R.ReplayIsFaithful(w, serverOps);
    SliceFollows(world.log, prefix, j);
    PageShows(s, snapshot, clientOps, prefix[j + 1..]);
    HeardAllIff(s.seen, R.Since(prefix[j + 1..]));
  }

  /** The log of a conversation with two events, and a server that has just sent a snapshot
      which holds the first. */
  ghost function ServerAt(first: Event, event: Event): R.World {
    R.World([first, event], 0,
            R.Server(Some(first.id), [], false, false, false, [R.SnapshotFrame(Some(first.id))]))
  }

  lemma ServerReplays(first: Event, event: Event)
    requires first.id != event.id
    ensures R.JustSubscribed(ServerAt(first, event))
    ensures R.Run(ServerAt(first, event), [R.Poll(2), R.SendNext]).server.sent
         == [R.SnapshotFrame(Some(first.id)), R.EventFrame(event)]
  {
    var w, log := ServerAt(first, event), [first, event];
    assert log[..1] == [first] && R.Find([first], first.id) == Some(0);
    assert R.Find(log, first.id) == Some(0);
    assert [R.Poll(2), R.SendNext][..1] == [R.Poll(2)] && [R.Poll(2)][..0] == [];
    assert R.Run(w, [R.Poll(2)][..0]) == w;
    assert R.Run(w, [R.Poll(2)]) == w.(server := w.server.(batch := [event]));
  }

  /** What the client receives on one socket: the snapshot, then the event. */
  ghost function OnSocket(socket: nat, snapshot: Snapshot, event: Event): seq<C.Op> {
    [C.Open, C.Receive(socket, C.SnapshotFrame(snapshot)), C.Receive(socket, C.EventFrame(event, true))]
  }

  lemma {:induction false} RunConcat(s: C.State, a: seq<C.Op>, b: seq<C.Op>)
    ensures C.Run(s, a + b) == C.Run(C.Run(s, a), b)
  {
    if b == [] {
      assert a + b == a;
    } else {
      RunConcat(s, a, b[..|b| - 1]);
      assert (a + b)[..|a + b| - 1] == a + b[..|b| - 1];
    }
  }

  lemma RunNext(s: C.State, ops: seq<C.Op>, op: C.Op)
    ensures C.Run(s, ops + [op]) == C.Step(C.Run(s, ops), op)
  {
    assert (ops + [op])[..|ops|] == ops;
  }

  lemma RunThree(s: C.State, a: C.Op, b: C.Op, c: C.Op)
    ensures C.Run(s, [a, b, c]) == C.Step(C.Step(C.Step(s, a), b), c)
  {
    RunNext(s, [], a);
    RunNext(s, [a], b);
    RunNext(s, [a, b], c);
    assert [] + [a] == [a] && [a] + [b] == [a, b] && [a, b] + [c] == [a, b, c];
  }

  /** The first socket delivers the event, and the second, given the same again, drops it. */
  lemma SecondSocketIsDeaf(snapshot: Snapshot, event: Event)
    ensures Show(EMPTY_VIEW, C.Run(C.Initial(snapshot.conversation, None),
                                   OnSocket(1, snapshot, event) + OnSocket(2, snapshot, event)).calls)
         == ProjectSnapshot(snapshot)
  {
    var s, one, two := C.Initial(snapshot.conversation, None), OnSocket(1, snapshot, event), OnSocket(2, snapshot, event);
    RunConcat(s, one, two);
    RunThree(s, one[0], one[1], one[2]);
    var t := C.Run(s, one);
    assert t.seen == [event.id] && t.generation == 1;
    RunThree(t, two[0], two[1], two[2]);
    var u := C.Step(C.Step(t, two[0]), two[1]);
    assert C.Step(u, two[2]) == u && u.calls[|u.calls| - 1] == C.OnSnapshot(snapshot, 2);
  }

  /** The window outlives a snapshot. The client connects, is given a snapshot that lags one
      event behind the log, and hears the event; it reconnects, is given the same snapshot,
      and the event is sent again, as on the first socket. It is dropped: the page shows the
      snapshot alone and misses the event. */
  lemma StaleSnapshotLosesEvent(first: Event, event: Event, snapshot: Snapshot)
    requires first.id != event.id && snapshot.lastEventId == Some(first.id)
    ensures R.JustSubscribed(ServerAt(first, event))
    ensures R.Run(ServerAt(first, event), [R.Poll(2), R.SendNext]).server.sent
         == [R.SnapshotFrame(snapshot.lastEventId), R.EventFrame(event)]
    ensures var t := C.Run(C.Initial(snapshot.conversation, None),
                           OnSocket(1, snapshot, event) + OnSocket(2, snapshot, event));
            && Show(EMPTY_VIEW, t.calls) == ProjectSnapshot(snapshot)
            && Show(EMPTY_VIEW, t.calls) != Fold(ProjectSnapshot(snapshot), [event])
  {
    ServerReplays(first, event);
    SecondSocketIsDeaf(snapshot, event);
    assert [event][..0] == [];
    assert Fold(ProjectSnapshot(snapshot), [event]) == ProjectEvent(Fold(ProjectSnapshot(snapshot), []), event);
  }
}
