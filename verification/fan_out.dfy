/** One active run's bounded event ring and its bounded subscriber queues
    (backend/voice_console/run_coordinator.py: _emit, _subscribe_active, unsubscribe). */
module FanOut {
  import opened Options
  import opened Sequences
  import opened RunStore
  import Life = RunLifecycle

  const QUEUE_SIZE: nat := 64
  const REPLAY_LIMIT: nat := 62

  datatype Event = Event(kind: Life.Kind, sequence: nat)

  datatype Item =
    | Snapshot(status: Status, lastSequence: nat)
    | Deliver(event: Event)
    | EndOfRun

  /** A queue: what its reader has taken, what is still in it, and what it asked for.
      `base` is the sequence number right before the first event it is handed. */
  datatype Queue = Queue(taken: seq<Item>, waiting: seq<Item>, base: int)

  datatype State = State(
    record: Row,
    ring: seq<Event>,
    maxEvents: nat,
    queues: map<nat, Queue>,
    attached: set<nat>)

  datatype Op =
    | Emit(kind: Life.Kind, stored: Row, now: nat)  // stored: the run's row in the table
    | Subscribe(q: nat, lastSequence: nat)
    | Take(q: nat)
    | Unsubscribe(q: nat)

  // ---- Subscribing -----------------------------------------------------------------

  function After(ring: seq<Event>, lastSequence: nat): seq<Event> {
    if ring == [] then []
    else After(ring[..|ring| - 1], lastSequence) +
         (if ring[|ring| - 1].sequence > lastSequence then [ring[|ring| - 1]] else [])
  }

  function Items(events: seq<Event>): seq<Item> {
    seq(|events|, i requires 0 <= i < |events| => Deliver(events[i]))
  }

  predicate Gap(ring: seq<Event>, lastSequence: nat)
    requires ring != []
  {
    (lastSequence > 0 && lastSequence < ring[0].sequence - 1) || |After(ring, lastSequence)| > REPLAY_LIMIT
  }

  function Pending(ring: seq<Event>, lastSequence: nat): seq<Event> {
    if ring == [] then []
    else if Gap(ring, lastSequence) then LastN(After(ring, lastSequence), REPLAY_LIMIT)
    else After(ring, lastSequence)
  }

  function FirstItems(record: Row, ring: seq<Event>, lastSequence: nat): seq<Item> {
    (if ring != [] && Gap(ring, lastSequence) then [Snapshot(record.status, record.lastSequence)] else [])
    + Items(Pending(ring, lastSequence))
  }

  function Opened(record: Row, ring: seq<Event>, lastSequence: nat): Queue {
    Queue([], FirstItems(record, ring, lastSequence), BaseOf(Pending(ring, lastSequence), record.lastSequence))
  }

  // ---- Emitting --------------------------------------------------------------------

  function Offered(waiting: seq<Item>, item: Item): seq<Item> {
    if |waiting| < QUEUE_SIZE then waiting + [item] else waiting
  }

  function Notified(queue: Queue, event: Event): Queue {
    var now := Offered(queue.waiting, Deliver(event));
    queue.(waiting := if |queue.waiting| < QUEUE_SIZE && Life.TerminalKind(event.kind) then Offered(now, EndOfRun) else now)
  }

  function NotifiedAll(queues: map<nat, Queue>, who: set<nat>, event: Event): (r: map<nat, Queue>)
    ensures r.Keys == queues.Keys
  {
    map q | q in queues :: if q in who then Notified(queues[q], event) else queues[q]
  }

  function FullOnes(queues: map<nat, Queue>, who: set<nat>): set<nat> {
    set q | q in who && q in queues && |queues[q].waiting| >= QUEUE_SIZE
  }

  function Published(s: State, event: Event, record: Row): State {
    State(record, LastN(s.ring + [event], s.maxEvents), s.maxEvents,
          NotifiedAll(s.queues, s.attached, event), s.attached - FullOnes(s.queues, s.attached))
  }

  function Step(s: State, op: Op): State {
    match op
    case Emit(kind, stored, now) =>
      Published(s, Event(kind, s.record.lastSequence + 1), Apply(stored, Life.EmitChange(s.record, kind), now))
    case Subscribe(q, lastSequence) =>
      if q in s.queues then s
      else s.(queues := s.queues[q := Opened(s.record, s.ring, lastSequence)], attached := s.attached + {q})
    case Take(q) =>
      if q !in s.queues || s.queues[q].waiting == [] then s
      else s.(queues := s.queues[q := s.queues[q].(taken := s.queues[q].taken + [s.queues[q].waiting[0]],
                                                   waiting := s.queues[q].waiting[1..])])
    case Unsubscribe(q) => s.(attached := s.attached - {q})
  }

  ghost function Run(s: State, ops: seq<Op>): State {
    if ops == [] then s else Step(Run(s, ops[..|ops| - 1]), ops[|ops| - 1])
  }

  // ---- What a subscriber is handed ---------------------------------------------------

  /** The sequence numbers of the events among the items. */
  ghost function Numbers(items: seq<Item>): seq<int> {
    if items == [] then []
    else Numbers(items[..|items| - 1]) +
         (if items[|items| - 1].Deliver? then [items[|items| - 1].event.sequence] else [])
  }

  ghost function Handed(queue: Queue): seq<int> {
    Numbers(queue.taken + queue.waiting)
  }

  /** base + 1, base + 2, ..., base + n */
  ghost function Range(base: int, n: nat): seq<int> {
    seq(n, i => base + 1 + i)
  }

  ghost predicate Consecutive(ring: seq<Event>, last: nat) {
    |ring| <= last && forall i :: 0 <= i < |ring| ==> ring[i].sequence == last - |ring| + 1 + i
  }

  /** The handed events are one gap-free run; an attached queue is up to date. */
  ghost predicate Complete(queue: Queue, attached: bool, last: nat) {
    && |queue.waiting| <= QUEUE_SIZE
    && Handed(queue) == Range(queue.base, |Handed(queue)|)
    && queue.base + |Handed(queue)| <= last
    && (attached ==> queue.base + |Handed(queue)| == last)
  }

  ghost predicate Good(s: State) {
    && Consecutive(s.ring, s.record.lastSequence) && |s.ring| <= s.maxEvents
    && s.attached <= s.queues.Keys
    && AllComplete(s.queues, s.attached, s.record.lastSequence)
  }

  ghost predicate AllComplete(queues: map<nat, Queue>, attached: set<nat>, last: nat) {
    forall q :: q in queues ==> Complete(queues[q], q in attached, last)
  }

  lemma {:induction false} NumbersConcat(a: seq<Item>, b: seq<Item>)
    ensures Numbers(a + b) == Numbers(a) + Numbers(b)
  {
    if b == [] {
      assert a + b == a;
    } else {
      NumbersConcat(a, b[..|b| - 1]);
      assert (a + b)[..|a + b| - 1] == a + b[..|b| - 1];
    }
  }

  lemma {:induction false} NumbersOfItems(events: seq<Event>)
    ensures |Numbers(Items(events))| == |events|
    ensures forall i :: 0 <= i < |events| ==> Numbers(Items(events))[i] == events[i].sequence
  {
    if events != [] {
      NumbersOfItems(events[..|events| - 1]);
      assert Items(events)[..|events| - 1] == Items(events[..|events| - 1]);
    }
  }

  /** The events after a number are the tail of a consecutive ring. */
  lemma {:induction false} AfterIsTail(ring: seq<Event>, last: nat, lastSequence: nat)
    requires Consecutive(ring, last)
    ensures var skip := if lastSequence + |ring| <= last then 0 else if lastSequence >= last then |ring|
                        else lastSequence + |ring| - last;
            After(ring, lastSequence) == ring[skip..]
  {
    if ring != [] {
      var init := ring[..|ring| - 1];
      AfterIsTail(init, last - 1, lastSequence);
      if lastSequence >= last {
        assert After(ring, lastSequence) == [] + [];
      } else if lastSequence + |ring| <= last {
        assert init[0..] + [ring[|ring| - 1]] == ring;
      } else {
        assert init[lastSequence + |ring| - last..] + [ring[|ring| - 1]] == ring[lastSequence + |ring| - last..];
      }
    }
  }

  /** What is replayed: of the events in the ring with a higher number, the last 62 at most,
      in order. */
  lemma ReplayedAre(ring: seq<Event>, last: nat, n: nat)
    requires Consecutive(ring, last)
    ensures var later := if last <= n then 0 else if last - n < |ring| then last - n else |ring|;
            Pending(ring, n) == ring[|ring| - (if later < 62 then later else 62)..]
  {
    AfterIsTail(ring, last, n);
  }

  lemma SuffixIsConsecutive(ring: seq<Event>, last: nat, skip: nat)
    requires Consecutive(ring, last) && skip <= |ring|
    ensures Consecutive(ring[skip..], last)
  {
  }

  lemma PendingIsTail(ring: seq<Event>, last: nat, lastSequence: nat)
    requires Consecutive(ring, last)
    ensures Consecutive(Pending(ring, lastSequence), last)
    ensures |Pending(ring, lastSequence)| <= REPLAY_LIMIT
  {
    ReplayedAre(ring, last, lastSequence);
    SuffixIsConsecutive(ring, last, |ring| - |Pending(ring, lastSequence)|);
  }

  /** No put ever overflows a fresh queue, and what it is handed ends at the present. */
  lemma OpenedIsComplete(record: Row, ring: seq<Event>, lastSequence: nat)
    requires Consecutive(ring, record.lastSequence)
    ensures |FirstItems(record, ring, lastSequence)| <= REPLAY_LIMIT + 1 < QUEUE_SIZE
    ensures Complete(Opened(record, ring, lastSequence), true, record.lastSequence)
  {
    var pending := Pending(ring, lastSequence);
    var first := FirstItems(record, ring, lastSequence);
    PendingIsTail(ring, record.lastSequence, lastSequence);
    FirstItemsHand(record, ring, lastSequence);
    TailRange(pending, record.lastSequence);
    assert [] + first == first;
  }

  function BaseOf(pending: seq<Event>, last: nat): int {
    if pending == [] then last else pending[0].sequence - 1
  }

  lemma TailRange(pending: seq<Event>, last: nat)
    requires Consecutive(pending, last)
    ensures Numbers(Items(pending)) == Range(BaseOf(pending, last), |pending|)
    ensures BaseOf(pending, last) + |pending| == last
  {
    NumbersOfItems(pending);
  }

  lemma FirstItemsHand(record: Row, ring: seq<Event>, lastSequence: nat)
    ensures Numbers(FirstItems(record, ring, lastSequence)) == Numbers(Items(Pending(ring, lastSequence)))
  {
    var head := if ring != [] && Gap(ring, lastSequence) then [Snapshot(record.status, record.lastSequence)] else [];
    NumbersConcat(head, Items(Pending(ring, lastSequence)));
    assert Numbers(head) == [];
  }

  /** Without a snapshot the run starts right after the number asked for exactly when the
      ring can tell: it holds events and the number is a past one (0 only while the first
      event is still there), or it is empty and the number is the present one. */
  lemma StartsWhereAskedIff(record: Row, ring: seq<Event>, lastSequence: nat)
    requires Consecutive(ring, record.lastSequence) && !(ring != [] && Gap(ring, lastSequence))
    ensures Opened(record, ring, lastSequence).base == lastSequence <==>
            if ring == [] then lastSequence == record.lastSequence
            else lastSequence <= record.lastSequence && (lastSequence == 0 ==> ring[0].sequence == 1)
  {
    AfterIsTail(ring, record.lastSequence, lastSequence);
  }

  /** A failing input: a recovered run has numbered events and an empty ring. Whoever asks for
      a past number is handed nothing, no snapshot either, and goes on after the latest. */
  lemma RecoveredRunSkips(record: Row, lastSequence: nat)
    requires lastSequence < record.lastSequence
    ensures Handed(Opened(record, [], lastSequence)) == [] && Opened(record, [], lastSequence).waiting == []
    ensures Opened(record, [], lastSequence).base == record.lastSequence > lastSequence
  {
    assert [] + Items([]) == [];
  }

  lemma NotifiedIsHanded(queue: Queue, event: Event)
    requires |queue.waiting| < QUEUE_SIZE
    ensures Handed(Notified(queue, event)) == Handed(queue) + [event.sequence]
    ensures |Notified(queue, event).waiting| <= QUEUE_SIZE
  {
    var before, now := queue.taken + queue.waiting, Notified(queue, event);
    var more := if |now.waiting| == |queue.waiting| + 1 then [Deliver(event)] else [Deliver(event), EndOfRun];
    assert now.taken + now.waiting == before + more;
    NumbersConcat(before, more);
    NumbersOfOne(event);
  }

  lemma NumbersOfOne(event: Event)
    ensures Numbers([Deliver(event)]) == Numbers([Deliver(event), EndOfRun]) == [event.sequence]
  {
    assert [Deliver(event)][..0] == [] && [Deliver(event), EndOfRun][..1] == [Deliver(event)];
    assert Numbers([Deliver(event)][..0]) == [];
  }

  lemma EmitKeepsQueue(queue: Queue, attached: bool, event: Event, last: nat)
    requires Complete(queue, attached, last) && event.sequence == last + 1
    ensures Complete(if attached then Notified(queue, event) else queue,
                     attached && |queue.waiting| < QUEUE_SIZE, last + 1)
  {
    if attached && |queue.waiting| < QUEUE_SIZE {
      NotifiedIsHanded(queue, event);
    }
  }

  lemma TakeKeepsQueue(queue: Queue)
    requires queue.waiting != []
    ensures Handed(queue.(taken := queue.taken + [queue.waiting[0]], waiting := queue.waiting[1..])) == Handed(queue)
  {
    assert queue.taken + [queue.waiting[0]] + queue.waiting[1..] == queue.taken + queue.waiting;
  }

  lemma RingKeeps(ring: seq<Event>, event: Event, maxEvents: nat, last: nat)
    requires Consecutive(ring, last) && event.sequence == last + 1
    ensures Consecutive(LastN(ring + [event], maxEvents), last + 1)
  {
    assert Consecutive(ring + [event], last + 1);
  }

  lemma NotifyAllKeeps(queues: map<nat, Queue>, attached: set<nat>, event: Event, last: nat)
    requires AllComplete(queues, attached, last) && event.sequence == last + 1
    ensures AllComplete(NotifiedAll(queues, attached, event), attached - FullOnes(queues, attached), last + 1)
  {
    forall q | q in queues
      ensures Complete(NotifiedAll(queues, attached, event)[q], q in attached - FullOnes(queues, attached), last + 1)
    {
      EmitKeepsQueue(queues[q], q in attached, event, last);
    }
  }

  lemma PublishedIsGood(s: State, event: Event, record: Row)
    requires Good(s) && event.sequence == record.lastSequence == s.record.lastSequence + 1
    ensures Good(Published(s, event, record))
  {
    RingKeeps(s.ring, event, s.maxEvents, s.record.lastSequence);
    NotifyAllKeeps(s.queues, s.attached, event, s.record.lastSequence);
  }

  lemma SubscribeKeepsGood(s: State, q: nat, lastSequence: nat)
    requires Good(s)
    ensures Good(Step(s, Subscribe(q, lastSequence)))
  {
    OpenedIsComplete(s.record, s.ring, lastSequence);
  }

  lemma TakeKeepsGood(s: State, q: nat)
    requires Good(s)
    ensures Good(Step(s, Take(q)))
  {
    if q in s.queues && s.queues[q].waiting != [] {
      TakeKeepsQueue(s.queues[q]);
    }
  }

  lemma UnsubscribeKeepsGood(s: State, q: nat)
    requires Good(s)
    ensures Good(Step(s, Unsubscribe(q)))
  {
  }

  lemma StepKeepsGood(s: State, op: Op)
    requires Good(s)
    ensures Good(Step(s, op))
  {
    match op
    case Emit(kind, stored, now) =>
      PublishedIsGood(s, Event(kind, s.record.lastSequence + 1),
                      Apply(stored, Life.EmitChange(s.record, kind), now));
    case Subscribe(q, lastSequence) => SubscribeKeepsGood(s, q, lastSequence);
    case Take(q) => TakeKeepsGood(s, q);
    case Unsubscribe(q) => UnsubscribeKeepsGood(s, q);
  }

  /** A run that has just been started or recovered. */
  ghost predicate JustActive(s: State) {
    s.ring == [] && s.queues == map[] && s.attached == {}
  }

  lemma {:induction false} StaysGood(s: State, ops: seq<Op>)
    requires Good(s)
    ensures Good(Run(s, ops))
  {
    if ops != [] {
      StaysGood(s, ops[..|ops| - 1]);
      StepKeepsGood(Run(s, ops[..|ops| - 1]), ops[|ops| - 1]);
    }
  }

  /** Over every interleaving of emits, subscriptions, reads and drops: each subscriber is
      handed a gap-free run of sequence numbers, complete up to the present while it is
      attached, and no queue ever exceeds its size. */
  lemma SubscribersMissNothing(s: State, ops: seq<Op>, q: nat)
    requires JustActive(s) && q in Run(s, ops).queues
    ensures var t := Run(s, ops);
            var queue := t.queues[q];
            && |queue.waiting| <= QUEUE_SIZE
            && Handed(queue) == Range(queue.base, |Handed(queue)|)
            && queue.base + |Handed(queue)| <= t.record.lastSequence
            && (q in t.attached ==> queue.base + |Handed(queue)| == t.record.lastSequence)
  {
    StaysGood(s, ops);
  }

  /** Where a queue starts never changes after it is opened. */
  lemma {:induction false} BaseIsFixed(s: State, ops: seq<Op>, q: nat)
    requires q in s.queues
    ensures q in Run(s, ops).queues && Run(s, ops).queues[q].base == s.queues[q].base
  {
    if ops != [] {
      BaseIsFixed(s, ops[..|ops| - 1], q);
    }
  }

  /** The subscriber's view of the whole: one that joins a non-empty ring with a past,
      positive number and gets no snapshot is handed lastSequence + 1, lastSequence + 2, ... */
  lemma ResumesAfterLastSequence(s: State, before: seq<Op>, q: nat, lastSequence: nat, after: seq<Op>)
    requires JustActive(s) && q !in Run(s, before).queues
    requires Run(s, before).ring != [] && 1 <= lastSequence <= Run(s, before).record.lastSequence
    requires !Gap(Run(s, before).ring, lastSequence)
    ensures var t := Run(Step(Run(s, before), Subscribe(q, lastSequence)), after);
            && q in t.queues
            && Handed(t.queues[q]) == Range(lastSequence, |Handed(t.queues[q])|)
            && (q in t.attached ==> lastSequence + |Handed(t.queues[q])| == t.record.lastSequence)
  {
    var joined := Step(Run(s, before), Subscribe(q, lastSequence));
    StaysGood(s, before);
    StartsWhereAskedIff(Run(s, before).record, Run(s, before).ring, lastSequence);
    StepKeepsGood(Run(s, before), Subscribe(q, lastSequence));
    StaysGood(joined, after);
    BaseIsFixed(joined, after, q);
  }

  // ---- What each step does ---------------------------------------------------------------

  /** A subscriber is sent a snapshot first if and only if events after its number have left
      the ring, or more than 62 are to be replayed; the snapshot says where the run is. */
  lemma SnapshotIff(record: Row, ring: seq<Event>, n: nat)
    requires Consecutive(ring, record.lastSequence) && ring != []
    ensures var first, missed := FirstItems(record, ring, n), record.lastSequence as int - n as int;
            if (1 <= n && n + 1 < ring[0].sequence) || (missed > 62 && |ring| > 62)
            then first != [] && first[0] == Snapshot(record.status, record.lastSequence)
            else forall i :: 0 <= i < |first| ==> first[i].Deliver?
  {
    AfterIsTail(ring, record.lastSequence, n);
  }

  /** A queue is opened with the snapshot, if one is due, and the replayed events. */
  lemma OpenedHolds(record: Row, ring: seq<Event>, n: nat)
    requires Consecutive(ring, record.lastSequence) && ring != []
    ensures var queue, replayed := Opened(record, ring, n), Items(Pending(ring, n));
            && queue.taken == []
            && queue.waiting == (if queue.waiting != [] && queue.waiting[0].Snapshot?
                                 then [Snapshot(record.status, record.lastSequence)] + replayed else replayed)
            && forall i :: 0 <= i < |replayed| ==> replayed[i] == Deliver(Pending(ring, n)[i])
  {
    SnapshotIff(record, ring, n);
    assert [] + Items(Pending(ring, n)) == Items(Pending(ring, n));
  }

  /** An event enters the ring with its kind and number; the oldest leaves a full ring. */
  lemma EmitDecides(s: State, kind: Life.Kind, stored: Row, now: nat)
    requires |s.ring| <= s.maxEvents
    ensures var t, event := Step(s, Emit(kind, stored, now)), Event(kind, s.record.lastSequence + 1);
            && t.ring == (if s.maxEvents == 0 then []
                          else if |s.ring| < s.maxEvents then s.ring + [event] else s.ring[1..] + [event])
            && t.maxEvents == s.maxEvents
            && t.record.lastSequence == s.record.lastSequence + 1
            && t.record.runId == stored.runId && t.record.owner == stored.owner
  {
  }

  /** Every subscriber with room is handed the event, exactly the full ones are dropped, and a
      queue that is not subscribed is left alone. */
  lemma EmitHands(s: State, kind: Life.Kind, stored: Row, now: nat, q: nat)
    requires q in s.queues
    ensures var t, waiting := Step(s, Emit(kind, stored, now)), s.queues[q].waiting;
            && q in t.queues && t.queues[q].taken == s.queues[q].taken
            && (q in t.attached <==> q in s.attached && |waiting| < 64)
            && (q in s.attached && |waiting| < 64 ==>
                  t.queues[q].waiting == waiting + [Deliver(Event(kind, s.record.lastSequence + 1))]
                    + (if kind in {Life.AgentCompleted, Life.AgentFailed, Life.AgentStopped} && |waiting| < 63
                       then [EndOfRun] else []))
            && (!(q in s.attached && |waiting| < 64) ==> t.queues[q] == s.queues[q])
  {
  }

  /** Subscribing attaches a new queue; unsubscribing detaches one; neither touches another. */
  lemma SubscriptionDecides(s: State, q: nat, n: nat)
    ensures q !in s.queues ==>
              Step(s, Subscribe(q, n)) == s.(queues := s.queues[q := Opened(s.record, s.ring, n)],
                                             attached := s.attached + {q})
    ensures Step(s, Unsubscribe(q)) == s.(attached := s.attached - {q})
  {
  }

  /** Reading takes the oldest waiting item. */
  lemma TakeDecides(s: State, q: nat)
    requires q in s.queues && s.queues[q].waiting != []
    ensures var t, queue := Step(s, Take(q)), s.queues[q];
            && t == s.(queues := t.queues) && q in t.queues
            && t.queues[q] == queue.(taken := queue.taken + queue.waiting[..1], waiting := queue.waiting[1..])
            && forall p :: p != q ==> (p in t.queues <==> p in s.queues) && (p in s.queues ==> t.queues[p] == s.queues[p])
  {
    assert s.queues[q].waiting[..1] == [s.queues[q].waiting[0]];
  }

  // ---- The end marker --------------------------------------------------------------------

  /** After a terminal event a queue is handed the event and the end marker if and only if it
      has two free slots; with exactly one it is handed the event alone, and stays attached. */
  lemma EndMarkerIff(queue: Queue, event: Event)
    requires Life.TerminalKind(event.kind)
    ensures Notified(queue, event).waiting == queue.waiting + [Deliver(event), EndOfRun]
       <==> |queue.waiting| < QUEUE_SIZE - 1
    ensures |queue.waiting| == QUEUE_SIZE - 1 ==>
              Notified(queue, event).waiting == queue.waiting + [Deliver(event)]
  {
  }

  /** A subscriber of a run that has emitted nothing yet, and n events it does not read. */
  ghost function Unread(q: nat, n: nat, stored: Row, now: nat): seq<Op> {
    [Subscribe(q, 0)] + seq(n, _ => Emit(Life.OtherKind, stored, now))
  }

  /** An event that is not terminal adds itself to an attached queue with room, and detaches
      one without. */
  lemma OneMoreUnread(s: State, q: nat, stored: Row, now: nat)
    requires q in s.queues
    ensures var t, waiting := Step(s, Emit(Life.OtherKind, stored, now)), s.queues[q].waiting;
            && q in t.queues
            && t.queues[q].waiting == (if q in s.attached && |waiting| < QUEUE_SIZE
                                       then waiting + [Deliver(Event(Life.OtherKind, s.record.lastSequence + 1))]
                                       else waiting)
            && (q in t.attached <==> q in s.attached && |waiting| < QUEUE_SIZE)
  {
  }

  /** n events have been offered to a queue that nobody reads. */
  ghost predicate FilledBy(t: State, q: nat, n: nat) {
    && q in t.queues && EndOfRun !in t.queues[q].waiting
    && |t.queues[q].waiting| == (if n < QUEUE_SIZE then n else QUEUE_SIZE)
    && (q in t.attached <==> n <= QUEUE_SIZE)
  }

  lemma OneMoreFills(t: State, q: nat, n: nat, stored: Row, now: nat)
    requires FilledBy(t, q, n)
    ensures FilledBy(Step(t, Emit(Life.OtherKind, stored, now)), q, n + 1)
  {
    OneMoreUnread(t, q, stored, now);
  }

  lemma NoneUnread(s: State, q: nat, stored: Row, now: nat)
    requires JustActive(s)
    ensures FilledBy(Run(s, Unread(q, 0, stored, now)), q, 0)
  {
    var ops := Unread(q, 0, stored, now);
    assert ops == [Subscribe(q, 0)] && ops[..0] == [];
    assert Run(s, ops[..0]) == s;
    assert FirstItems(s.record, [], 0) == [];
  }

  lemma UnreadNext(s: State, q: nat, n: nat, stored: Row, now: nat)
    ensures Run(s, Unread(q, n + 1, stored, now))
         == Step(Run(s, Unread(q, n, stored, now)), Emit(Life.OtherKind, stored, now))
  {
    var ops := Unread(q, n + 1, stored, now);
    assert ops[..|ops| - 1] == Unread(q, n, stored, now) && ops[|ops| - 1] == Emit(Life.OtherKind, stored, now);
  }

  lemma UnreadStep(s: State, q: nat, n: nat, stored: Row, now: nat)
    requires FilledBy(Run(s, Unread(q, n, stored, now)), q, n)
    ensures FilledBy(Run(s, Unread(q, n + 1, stored, now)), q, n + 1)
  {
    UnreadNext(s, q, n, stored, now);
    OneMoreFills(Run(s, Unread(q, n, stored, now)), q, n, stored, now);
  }

  lemma {:induction false} UnreadFills(s: State, q: nat, n: nat, stored: Row, now: nat)
    requires JustActive(s)
    ensures FilledBy(Run(s, Unread(q, n, stored, now)), q, n)
  {
    if n == 0 {
      NoneUnread(s, q, stored, now);
    } else {
      UnreadFills(s, q, n - 1, stored, now);
      UnreadStep(s, q, n - 1, stored, now);
    }
  }

  /** A reader that falls behind learns that the run has ended if and only if fewer than 63
      events were waiting for it. At exactly 63 it is not dropped either, and waits for ever. */
  lemma SlowReaderEndsIff(s: State, q: nat, n: nat, kind: Life.Kind, stored: Row, now: nat)
    requires JustActive(s) && Life.TerminalKind(kind)
    ensures var t := Step(Run(s, Unread(q, n, stored, now)), Emit(kind, stored, now));
            && q in t.queues
            && (EndOfRun in t.queues[q].waiting <==> n < QUEUE_SIZE - 1)
            && (n == QUEUE_SIZE - 1 ==> q in t.attached)
  {
    UnreadFills(s, q, n, stored, now);
    var t := Run(s, Unread(q, n, stored, now));
    var event := Event(kind, t.record.lastSequence + 1);
    EndMarkerIff(t.queues[q], event);
    if n < QUEUE_SIZE - 1 {
      assert (t.queues[q].waiting + [Deliver(event), EndOfRun])[n + 1] == EndOfRun;
    }
  }

  // ---- The active run object ----------------------------------------------------------

  lemma NotifyNext(queues: map<nat, Queue>, who: set<nat>, q: nat, event: Event)
    requires q in queues && q !in who
    ensures NotifiedAll(queues, who, event)[q] == queues[q]
    ensures NotifiedAll(queues, who + {q}, event)
         == NotifiedAll(queues, who, event)[q := Notified(queues[q], event)]
    ensures FullOnes(queues, who + {q})
         == FullOnes(queues, who) + (if |queues[q].waiting| >= QUEUE_SIZE then {q} else {})
  {
  }

  class ActiveRun {
    var record: Row
    var maxEvents: nat
    var events: seq<Event>
    var queues: map<nat, Queue>
    var subscribers: set<nat>

    ghost function View(): State
      reads this
    {
      State(record, events, maxEvents, queues, subscribers)
    }

    constructor (record: Row, maxEvents: nat)
      ensures View() == State(record, [], maxEvents, map[], {}) && JustActive(View())
    {
      this.record, this.maxEvents := record, maxEvents;
      events, queues, subscribers := [], map[], {};
    }

    /** A put that reports a full queue instead of raising. */
    method PutNowait(q: nat, item: Item) returns (full: bool)
      requires q in queues
      modifies this`queues
      ensures full <==> |old(queues)[q].waiting| >= QUEUE_SIZE
      ensures queues == old(queues)[q := old(queues)[q].(waiting := Offered(old(queues)[q].waiting, item))]
    {
      full := |queues[q].waiting| >= QUEUE_SIZE;
      if !full {
        queues := queues[q := queues[q].(waiting := queues[q].waiting + [item])];
      }
    }

    /** One subscriber's puts: the event, and the end marker after a terminal event. */
    method Notify(q: nat, event: Event) returns (full: bool)
      requires q in queues
      modifies this`queues
      ensures full <==> |old(queues)[q].waiting| >= QUEUE_SIZE
      ensures queues == old(queues)[q := Notified(old(queues)[q], event)]
    {
      full := PutNowait(q, Deliver(event));
      if !full && Life.TerminalKind(event.kind) {
        var _ := PutNowait(q, EndOfRun);
      }
    }

    /** Hand one event to every subscriber; the ones that are full are dropped. */
    method Broadcast(event: Event)
      requires subscribers <= queues.Keys
      modifies this`queues, this`subscribers
      ensures queues == NotifiedAll(old(queues), old(subscribers), event)
      ensures subscribers == old(subscribers) - FullOnes(old(queues), old(subscribers))
    {
      var todo, dead := subscribers, {};
      ghost var was := queues;
      assert queues == NotifiedAll(was, {}, event);
      while todo != {}
        invariant todo <= subscribers && subscribers == old(subscribers)
        invariant queues == NotifiedAll(was, subscribers - todo, event)
        invariant dead == FullOnes(was, subscribers - todo)
        decreases |todo|
      {
        var q :| q in todo;
        NotifyNext(was, subscribers - todo, q, event);
        assert subscribers - (todo - {q}) == subscribers - todo + {q};
        todo := todo - {q};
        var full := Notify(q, event);
        if full {
          dead := dead + {q};
        }
      }
      assert subscribers - {} == subscribers;
      subscribers := subscribers - dead;
    }

    /** None: the row is gone, as the table's lookup error reports. */
    method EmitEvent(store: ConsoleStore, id: string, kind: Life.Kind, now: nat) returns (ok: bool)
      requires subscribers <= queues.Keys
      modifies this, store
      ensures ok <==> id in old(store.runs)
      ensures ok ==> View() == Step(old(View()), Emit(kind, old(store.runs)[id], now))
      ensures ok ==> store.runs == old(store.runs)[id := record]
      ensures !ok ==> store.runs == old(store.runs) && record == old(record)
    {
      var event := Event(kind, record.lastSequence + 1);
      events := LastN(events + [event], maxEvents);
      var row := store.UpdateRun(id, Life.EmitChange(record, kind), now);
      ok := row.Some?;
      if ok {
        record := row.value;
        Broadcast(event);
      }
    }

    method SubscribeFrom(q: nat, lastSequence: nat)
      requires q !in queues
      modifies this
      ensures View() == Step(old(View()), Subscribe(q, lastSequence))
    {
      var first: seq<Item>, base := [], record.lastSequence;
      if events != [] {
        var oldest: int := events[0].sequence;
        var pending := After(events, lastSequence);
        if (lastSequence > 0 && lastSequence < oldest - 1) || |pending| > REPLAY_LIMIT {
          first := [Snapshot(record.status, record.lastSequence)];
          pending := LastN(pending, REPLAY_LIMIT);
        }
        if pending != [] {
          base := pending[0].sequence - 1;
        }
        first := first + Items(pending);
      } else {
        assert [] + Items([]) == [];
      }
      queues := queues[q := Queue([], first, base)];
      subscribers := subscribers + {q};
    }

    method TakeNext(q: nat) returns (item: Item)
      requires q in queues && queues[q].waiting != []
      modifies this`queues
      ensures View() == Step(old(View()), Take(q)) && item == old(queues)[q].waiting[0]
    {
      item := queues[q].waiting[0];
      queues := queues[q := queues[q].(taken := queues[q].taken + [item], waiting := queues[q].waiting[1..])];
    }

    method Discard(q: nat)
      modifies this`subscribers
      ensures View() == Step(old(View()), Unsubscribe(q))
    {
      subscribers := subscribers - {q};
    }
  }
}
