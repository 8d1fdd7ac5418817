/** Forwarding mutations to Hermes (backend/voice_console/realtime/service.py): the four
    mutations that consult the ledger, interleaved at their awaits with session creation,
    request lookups, event polls and restarts. */
module Proxy {
  import opened Options
  import opened RealtimeStore

  datatype Phase =
    | ToSend        // claimed as new; the request is being made
    | AwaitReply    // Hermes has been sent the mutation
    | LookingUp     // asking Hermes what became of the request

  /** One mutation call between two awaits. `claimedAt` is when its row was inserted. */
  datatype Call = Call(
    session: string, key: Key, operation: Operation, phase: Phase, claimedAt: nat)

  datatype Creation = Creation(key: Key)

  /** A mutation that Hermes was sent, with the time of the claim that allowed it. */
  datatype Sent = Sent(key: Key, session: string, claimedAt: nat)

  datatype Outcome = NoSession | Rejected | Cached(response: Json) | Started

  datatype Reply =
    | NotFinished(known: bool, response: Json)  // in_progress, or outcome_unknown
    | Final(response: Json, sessionState: Option<string>)

  datatype State = State(
    ledger: Ledger,
    sessions: Sessions,
    calls: map<nat, Call>,
    creations: map<nat, Creation>,
    sent: seq<Sent>,
    now: nat)

  datatype Op =
    | Begin(call: nat, session: string, key: Key, operation: Operation, payload: Json)
    | Transmit(call: nat)
    | LoseReply(call: nat)
    | Answer(call: nat, reply: Reply)
    | Fail(call: nat)
    | BeginCreate(call: nat, key: Key, payload: Json)
    | CreateNotFinished(call: nat, known: bool)
    | Created(call: nat, id: string, row: Session)
    | FailCreate(call: nat)
    | LookupCompletes(key: Key, id: string, row: Session)
    | PollEvents(id: string, sessionState: string, lastEventId: string)
    | Restart
    | Tick

  /** The session must be the caller's; an approval is scoped by its own id, the other
      mutations by the session. */
  predicate WellAddressed(op: Op) {
    op.Begin? ==> !op.operation.Create? && (!op.operation.Approval? ==> op.key.scope == op.session)
  }

  predicate Owns(sessions: Sessions, id: string, key: Key) {
    id in sessions && sessions[id].owner == key.owner && sessions[id].target == key.target
  }

  /** What a mutation call does before its first await. */
  function BeginOutcome(s: State, session: string, key: Key, operation: Operation, payload: Json): Outcome {
    if !Owns(s.sessions, session, key) then NoSession
    else match Claimed(s.ledger, key, operation, payload)
      case Conflict => Rejected
      case New => Started
      case Existing(state) =>
        if state.Complete? && key in s.ledger && s.ledger[key].response.Some?
        then Cached(s.ledger[key].response.value) else Started
  }

  function Unfinished(known: bool): RequestState {
    if known then InProgress else OutcomeUnknown
  }

  function Recorded(s: State, key: Key, id: string, session: Session): State {
    if Mismatch(s.sessions, id, session) then s
    else s.(sessions := AfterRecord(s.sessions, id, session),
            ledger := AfterSet(s.ledger, key, Complete, None, s.now))
  }

  /** The session row a creation of `key` records. */
  predicate Records(session: Session, key: Key, now: nat) {
    && session.owner == key.owner && session.target == key.target
    && session.conversation == key.scope && session.createRequest == key.request
    && session.updatedAt == now
  }

  function Step(s: State, op: Op): State {
    match op
    case Begin(c, session, key, operation, payload) =>
      if c in s.calls || !WellAddressed(op)
         || BeginOutcome(s, session, key, operation, payload) != Started then s
      else
        var isNew := Claimed(s.ledger, key, operation, payload).New?;
        s.(ledger := AfterClaim(s.ledger, key, operation, payload, s.now),
           calls := s.calls[c := Call(session, key, operation, if isNew then ToSend else LookingUp, s.now)])
    case Transmit(c) =>
      if c !in s.calls || !s.calls[c].phase.ToSend? then s
      else s.(calls := s.calls[c := s.calls[c].(phase := AwaitReply)],
              sent := s.sent + [Sent(s.calls[c].key, s.calls[c].session, s.calls[c].claimedAt)])
    case LoseReply(c) =>
      if c !in s.calls then s else s.(calls := s.calls[c := s.calls[c].(phase := LookingUp)])
    case Answer(c, reply) =>
      if c !in s.calls || s.calls[c].phase.ToSend? then s
      else
        var call, t := s.calls[c], s.(calls := s.calls - {c});
        (match reply
         case NotFinished(known, response) =>
           t.(ledger := AfterSet(s.ledger, call.key, Unfinished(known), Some(response), s.now))
         case Final(response, sessionState) =>
           t.(ledger := AfterSet(s.ledger, call.key, Complete, Some(response), s.now),
              sessions := if sessionState.Some?
                          then AfterUpdate(s.sessions, call.session, sessionState.value, None, s.now)
                          else s.sessions))
    case Fail(c) => s.(calls := s.calls - {c})
    case BeginCreate(c, key, payload) =>
      if c in s.creations || Claimed(s.ledger, key, Create, payload).Conflict? then s
      else s.(ledger := AfterClaim(s.ledger, key, Create, payload, s.now),
              creations := s.creations[c := Creation(key)])
    case CreateNotFinished(c, known) =>
      if c !in s.creations then s
      else s.(creations := s.creations - {c},
              ledger := AfterSet(s.ledger, s.creations[c].key, Unfinished(known), None, s.now))
    case Created(c, id, row) =>
      if c !in s.creations || !Records(row, s.creations[c].key, s.now) then s
      else Recorded(s.(creations := s.creations - {c}), s.creations[c].key, id, row)
    case FailCreate(c) => s.(creations := s.creations - {c})
    case LookupCompletes(key, id, row) =>
      if !Records(row, key, s.now) then s else Recorded(s, key, id, row)
    case PollEvents(id, state, lastEventId) =>
      s.(sessions := AfterUpdate(s.sessions, id, state, Some(lastEventId), s.now))
    case Restart =>
      s.(calls := map[], creations := map[],
         ledger := PurgedLedger(s.ledger, s.now), sessions := PurgedSessions(s.sessions, s.now))
    case Tick => s.(now := s.now + 1)
  }

  function Run(s: State, ops: seq<Op>): State {
    if ops == [] then s else Step(Run(s, ops[..|ops| - 1]), ops[|ops| - 1])
  }

  ghost const EMPTY := State(map[], map[], map[], map[], [], 0)

  // ---- What each step does ---------------------------------------------------------------

  /** A mutation begins in one of four ways: refused for want of the session, refused as a
      conflict, answered from the table, or started, to be sent if its claim is new and
      looked up if it is not. */
  lemma BeginDecides(s: State, c: nat, session: string, key: Key, operation: Operation, payload: Json)
    requires OneRowPerRequest(s.ledger) && c !in s.calls
    requires operation != Create && (operation != Approval ==> key.scope == session)
    ensures var t := Step(s, Begin(c, session, key, operation, payload));
            var owned := session in s.sessions && s.sessions[session].owner == key.owner
                         && s.sessions[session].target == key.target;
            var unused := forall k :: k in s.ledger ==>
                            !(k.owner == key.owner && k.target == key.target && k.request == key.request);
            var same := key in s.ledger && s.ledger[key].operation == operation && s.ledger[key].fingerprint == payload;
            var outcome := BeginOutcome(s, session, key, operation, payload);
            && outcome == (if !owned then NoSession
                           else if !unused && !same then Rejected
                           else if same && s.ledger[key].state == Complete && s.ledger[key].response.Some?
                           then Cached(s.ledger[key].response.value) else Started)
            && t == (if outcome != Started then s
                     else s.(ledger := if unused then s.ledger[key := Request(operation, payload, Pending, None, s.now)]
                                       else s.ledger,
                             calls := s.calls[c := Call(session, key, operation,
                                                        if unused then ToSend else LookingUp, s.now)]))
  {
    NewIffUnused(s.ledger, key, operation, payload);
    if k :| k in s.ledger && SameRequest(k, key) {
      ClaimDecides(s.ledger, k, key, operation, payload);
    }
    ClaimInserts(s.ledger, key, operation, payload, s.now);
  }

  /** A call that is to be sent is sent once, with its own session and key; a lost reply is
      looked up; a failure leaves the tables and what was sent alone. */
  lemma CallDecides(s: State, c: nat)
    requires c in s.calls
    ensures Step(s, Transmit(c)) ==
            if s.calls[c].phase == ToSend
            then s.(calls := s.calls[c := s.calls[c].(phase := AwaitReply)],
                    sent := s.sent + [Sent(s.calls[c].key, s.calls[c].session, s.calls[c].claimedAt)])
            else s
    ensures Step(s, LoseReply(c)) == s.(calls := s.calls[c := s.calls[c].(phase := LookingUp)])
    ensures Step(s, Fail(c)) == s.(calls := s.calls - {c})
  {
  }

  /** An answer is stored with its reply: complete when it is final, in_progress or
      outcome_unknown when it is not; the call is over, and a final answer that names a state
      sets the session's. */
  lemma AnswerIsStored(s: State, c: nat, reply: Reply)
    requires c in s.calls && s.calls[c].phase != ToSend && s.calls[c].key in s.ledger
    ensures var t, key := Step(s, Answer(c, reply)), s.calls[c].key;
            && c !in t.calls && t.calls == s.calls - {c} && t.sent == s.sent && t.creations == s.creations
            && key in t.ledger
            && t.ledger[key] == s.ledger[key].(state := t.ledger[key].state, response := Some(reply.response),
                                               updatedAt := s.now)
            && (t.ledger[key].state == Complete <==> reply.Final?)
            && (reply.NotFinished? ==> t.ledger[key].state == if reply.known then InProgress else OutcomeUnknown)
            && forall k :: k != key ==> (k in t.ledger <==> k in s.ledger) && (k in s.ledger ==> t.ledger[k] == s.ledger[k])
  {
  }

  /** And what becomes of the session. */
  lemma AnswerSetsSession(s: State, c: nat, reply: Reply)
    requires c in s.calls && s.calls[c].phase != ToSend
    ensures var t, id := Step(s, Answer(c, reply)), s.calls[c].session;
            && t.sessions.Keys == s.sessions.Keys
            && (reply.Final? && reply.sessionState.Some? && id in s.sessions ==>
                  t.sessions[id] == s.sessions[id].(state := reply.sessionState.value, updatedAt := s.now))
            && (reply.NotFinished? || reply.sessionState.None? ==> t.sessions == s.sessions)
            && forall x :: x in s.sessions && x != id ==> t.sessions[x] == s.sessions[x]
  {
  }

  lemma FinalAnswerFinishes(s: State, c: nat, response: Json, sessionState: Option<string>)
    requires c in s.calls && s.calls[c].phase != ToSend && s.calls[c].key in s.ledger
    requires s.ledger[s.calls[c].key].operation != Create
    ensures Finished(Step(s, Answer(c, Final(response, sessionState))), s.calls[c].key, response)
  {
    AnswerIsStored(s, c, Final(response, sessionState));
  }

  /** A creation is complete once its session is on record, and only then; a session that
      belongs to another identity leaves both tables as they were. */
  lemma CreationDecides(s: State, c: nat, id: string, row: Session)
    requires c in s.creations && s.creations[c].key in s.ledger
    requires row.owner == s.creations[c].key.owner && row.target == s.creations[c].key.target
    requires row.conversation == s.creations[c].key.scope && row.createRequest == s.creations[c].key.request
    requires row.updatedAt == s.now
    ensures var t, key := Step(s, Created(c, id, row)), s.creations[c].key;
            && t.creations == s.creations - {c} && t.calls == s.calls && t.sent == s.sent
            && t.sessions == AfterRecord(s.sessions, id, row)
            && t.ledger == (if Mismatch(s.sessions, id, row) then s.ledger
                            else s.ledger[key := s.ledger[key].(state := Complete, response := None, updatedAt := s.now)])
    ensures var t, key := Step(s, LookupCompletes(s.creations[c].key, id, row)), s.creations[c].key;
            && t.creations == s.creations && t.sessions == AfterRecord(s.sessions, id, row)
            && t.ledger == (if Mismatch(s.sessions, id, row) then s.ledger
                            else s.ledger[key := s.ledger[key].(state := Complete, response := None, updatedAt := s.now)])
  {
  }

  lemma CreationBegins(s: State, c: nat, key: Key, payload: Json, known: bool)
    requires c !in s.creations
    ensures Step(s, BeginCreate(c, key, payload)) ==
            if Claimed(s.ledger, key, Create, payload) == Conflict then s
            else s.(ledger := AfterClaim(s.ledger, key, Create, payload, s.now),
                    creations := s.creations[c := Creation(key)])
    ensures var began := s.(creations := s.creations[c := Creation(key)]);
            Step(began, CreateNotFinished(c, known))
            == s.(ledger := AfterSet(s.ledger, key, if known then InProgress else OutcomeUnknown, None, s.now))
    ensures Step(s.(creations := s.creations[c := Creation(key)]), FailCreate(c)) == s
  {
    assert s.creations[c := Creation(key)] - {c} == s.creations;
  }

  /** A poll, a restart and the clock. */
  lemma RestDecides(s: State, id: string, state: string, lastEventId: string)
    ensures Step(s, PollEvents(id, state, lastEventId))
         == s.(sessions := AfterUpdate(s.sessions, id, state, Some(lastEventId), s.now))
    ensures Step(s, Restart) == State(PurgedLedger(s.ledger, s.now), PurgedSessions(s.sessions, s.now),
                                      map[], map[], s.sent, s.now)
    ensures Step(s, Tick) == s.(now := s.now + 1)
  {
  }

  /** The round trip of a new mutation: it is sent once, and a repeat with the same body is
      answered with its reply and sends nothing. */
  lemma MutationRoundTrip(s: State, c: nat, session: string, key: Key, operation: Operation, payload: Json,
                          response: Json)
    requires OneRowPerRequest(s.ledger) && c !in s.calls && Owns(s.sessions, session, key)
    requires operation != Create && (operation != Approval ==> key.scope == session)
    requires forall k :: k in s.ledger ==> !SameRequest(k, key)
    ensures var t := Step(Step(Step(s, Begin(c, session, key, operation, payload)), Transmit(c)),
                          Answer(c, Final(response, None)));
            && t.sent == s.sent + [Sent(key, session, s.now)] && t.calls == s.calls
            && BeginOutcome(t, session, key, operation, payload) == Cached(response)
            && Step(t, Begin(c, session, key, operation, payload)) == t
  {
    BeginDecides(s, c, session, key, operation, payload);
    var begun := Step(s, Begin(c, session, key, operation, payload));
    CallDecides(begun, c);
    var waiting := Step(begun, Transmit(c));
    AnswerIsStored(waiting, c, Final(response, None));
    AnswerSetsSession(waiting, c, Final(response, None));
    var t := Step(waiting, Answer(c, Final(response, None)));
    assert waiting.calls - {c} == s.calls;
    TablesKept(s, c, session, key, operation, payload, response);
    BeginDecides(t, c, session, key, operation, payload);
  }

  lemma TablesKept(s: State, c: nat, session: string, key: Key, operation: Operation, payload: Json, response: Json)
    requires OneRowPerRequest(s.ledger)
    ensures OneRowPerRequest(Step(Step(Step(s, Begin(c, session, key, operation, payload)), Transmit(c)),
                                  Answer(c, Final(response, None))).ledger)
  {
    ClaimKeepsOneRow(s.ledger, key, operation, payload, s.now);
  }

  // ---- The tables in every run --------------------------------------------------------

  ghost predicate TablesGood(s: State) {
    OneRowPerRequest(s.ledger) && OneSessionPerCreate(s.sessions)
  }

  lemma TablesStep(s: State, op: Op)
    requires TablesGood(s)
    ensures TablesGood(Step(s, op))
  {
    match op
    case Begin(_, _, key, operation, payload) => ClaimKeepsOneRow(s.ledger, key, operation, payload, s.now);
    case BeginCreate(_, key, payload) => ClaimKeepsOneRow(s.ledger, key, Create, payload, s.now);
    case Created(_, id, row) => RecordKeepsOneSession(s.sessions, id, row);
    case LookupCompletes(_, id, row) => RecordKeepsOneSession(s.sessions, id, row);
    case _ =>
  }

  lemma {:induction false} TablesInEveryRun(ops: seq<Op>)
    ensures TablesGood(Run(EMPTY, ops))
  {
    if ops != [] {
      TablesInEveryRun(ops[..|ops| - 1]);
      TablesStep(Run(EMPTY, ops[..|ops| - 1]), ops[|ops| - 1]);
    }
  }

  /** A ledger row is never reassigned, and it only goes when it is past retention. */
  lemma RequestNeverReassigned(s: State, op: Op, k: Key)
    requires k in s.ledger
    ensures k in Step(s, op).ledger ==>
              && Step(s, op).ledger[k].operation == s.ledger[k].operation
              && Step(s, op).ledger[k].fingerprint == s.ledger[k].fingerprint
    ensures k !in Step(s, op).ledger ==> op.Restart? && s.ledger[k].updatedAt + RETENTION < s.now
  {
  }

  /** A session never changes hands, and only a closed one goes. */
  lemma SessionNeverReassigned(s: State, op: Op, id: string)
    requires id in s.sessions
    ensures id in Step(s, op).sessions ==> SameIdentity(Step(s, op).sessions[id], s.sessions[id])
    ensures id !in Step(s, op).sessions ==> op.Restart? && s.sessions[id].state == "closed"
  {
  }

  // ---- At most one forwarded mutation -------------------------------------------------

  /** A row of this request has been touched at or after `at`. */
  ghost predicate Covered(ledger: Ledger, key: Key, at: nat) {
    exists k :: k in ledger && SameRequest(k, key) && ledger[k].updatedAt >= at
  }

  /** The row of a claim outlives its retention period. */
  lemma CoverStep(s: State, op: Op, key: Key, at: nat)
    requires Covered(s.ledger, key, at) && at <= s.now
    ensures Covered(Step(s, op).ledger, key, at) || (op.Restart? && at + RETENTION < s.now)
  {
    var k :| k in s.ledger && SameRequest(k, key) && s.ledger[k].updatedAt >= at;
    var t := Step(s, op);
    if k in t.ledger {
      assert t.ledger[k].updatedAt >= at;
    }
  }

  ghost predicate Remembered(s: State) {
    forall i :: 0 <= i < |s.sent| ==>
      && s.sent[i].claimedAt <= s.now
      && (Covered(s.ledger, s.sent[i].key, s.sent[i].claimedAt) || s.sent[i].claimedAt + RETENTION < s.now)
  }

  ghost predicate SpacedApart(sent: seq<Sent>) {
    forall i, j :: 0 <= i < j < |sent| && SameRequest(sent[i].key, sent[j].key) ==>
      sent[i].claimedAt + RETENTION < sent[j].claimedAt
  }

  /** A call that may still send holds a live row, and earlier sends are past retention. */
  ghost predicate MaySend(s: State, call: Call) {
    && call.claimedAt <= s.now
    && Covered(s.ledger, call.key, call.claimedAt)
    && forall i :: 0 <= i < |s.sent| && SameRequest(s.sent[i].key, call.key) ==>
         s.sent[i].claimedAt + RETENTION < call.claimedAt
  }

  predicate Sending(s: State, c: nat) {
    c in s.calls && s.calls[c].phase.ToSend?
  }

  ghost predicate SendersGood(s: State) {
    && (forall c :: Sending(s, c) ==> MaySend(s, s.calls[c]))
    && (forall c, d :: Sending(s, c) && Sending(s, d) && SameRequest(s.calls[c].key, s.calls[d].key) ==> c == d)
  }

  ghost predicate OnceEach(s: State) {
    Remembered(s) && SpacedApart(s.sent) && SendersGood(s)
  }

  lemma SentGrows(s: State, op: Op)
    ensures Step(s, op).sent == s.sent
         || (op.Transmit? && Sending(s, op.call)
             && Step(s, op).sent
                == s.sent + [Sent(s.calls[op.call].key, s.calls[op.call].session, s.calls[op.call].claimedAt)])
    ensures s.now <= Step(s, op).now
  {
  }

  lemma RememberedStep(s: State, op: Op)
    requires OnceEach(s)
    ensures Remembered(Step(s, op))
  {
    var t := Step(s, op);
    SentGrows(s, op);
    forall i | 0 <= i < |t.sent|
      ensures t.sent[i].claimedAt <= t.now
           && (Covered(t.ledger, t.sent[i].key, t.sent[i].claimedAt) || t.sent[i].claimedAt + RETENTION < t.now)
    {
      if i == |s.sent| {
        assert MaySend(s, s.calls[op.call]);
      }
      if Covered(s.ledger, t.sent[i].key, t.sent[i].claimedAt) {
        CoverStep(s, op, t.sent[i].key, t.sent[i].claimedAt);
      }
    }
  }

  lemma SpacedStep(s: State, op: Op)
    requires OnceEach(s)
    ensures SpacedApart(Step(s, op).sent)
  {
    SentGrows(s, op);
    if op.Transmit? && Sending(s, op.call) {
      assert MaySend(s, s.calls[op.call]);
    }
  }

  /** A request that is claimed as new has not been sent within retention, and no other
      call is about to send it. */
  lemma NewMaySend(s: State, key: Key, operation: Operation, payload: Json, call: Call)
    requires OnceEach(s) && Claimed(s.ledger, key, operation, payload).New?
    requires call.key == key && call.claimedAt == s.now
    ensures MaySend(s.(ledger := AfterClaim(s.ledger, key, operation, payload, s.now)), call)
    ensures forall c :: Sending(s, c) ==> !SameRequest(s.calls[c].key, key)
  {
    NewIffUnused(s.ledger, key, operation, payload);
    var ledger := AfterClaim(s.ledger, key, operation, payload, s.now);
    assert key in ledger && SameRequest(key, key);
    forall c | Sending(s, c)
      ensures !SameRequest(s.calls[c].key, key)
    {
      assert MaySend(s, s.calls[c]);
    }
  }

  lemma MaySendStep(s: State, op: Op, c: nat)
    requires OnceEach(s) && Sending(s, c) && Sending(Step(s, op), c) && !op.Restart?
    ensures Step(s, op).calls[c] == s.calls[c] && MaySend(Step(s, op), s.calls[c])
  {
    assert MaySend(s, s.calls[c]);
    CoverStep(s, op, s.calls[c].key, s.calls[c].claimedAt);
    SentGrows(s, op);
    if op.Transmit? && Sending(s, op.call) {
      assert !SameRequest(s.calls[op.call].key, s.calls[c].key);
    }
  }

  /** Only a call that claimed its request as new starts to send. */
  lemma SendersComeFromClaims(s: State, op: Op, c: nat)
    requires Sending(Step(s, op), c) && !Sending(s, c)
    ensures op.Begin? && op.call == c && Claimed(s.ledger, op.key, op.operation, op.payload).New?
    ensures Step(s, op).calls[c].key == op.key && Step(s, op).calls[c].claimedAt == s.now
    ensures Step(s, op) == s.(ledger := AfterClaim(s.ledger, op.key, op.operation, op.payload, s.now),
                              calls := Step(s, op).calls)
  {
  }

  lemma SendersStep(s: State, op: Op)
    requires OnceEach(s)
    ensures SendersGood(Step(s, op))
  {
    var t := Step(s, op);
    forall c | Sending(t, c)
      ensures MaySend(t, t.calls[c])
    {
      if Sending(s, c) {
        MaySendStep(s, op, c);
      } else {
        SendersComeFromClaims(s, op, c);
        NewMaySend(s, op.key, op.operation, op.payload, t.calls[c]);
      }
    }
    forall c, d | Sending(t, c) && Sending(t, d) && SameRequest(t.calls[c].key, t.calls[d].key)
      ensures c == d
    {
      SendersDiffer(s, op, c, d);
    }
  }

  lemma SendersDiffer(s: State, op: Op, c: nat, d: nat)
    requires OnceEach(s) && Sending(Step(s, op), c) && Sending(Step(s, op), d)
    requires SameRequest(Step(s, op).calls[c].key, Step(s, op).calls[d].key)
    ensures c == d
  {
    var t := Step(s, op);
    if Sending(s, c) && Sending(s, d) {
      MaySendStep(s, op, c);
      MaySendStep(s, op, d);
    } else {
      var young, other := if Sending(s, c) then d else c, if Sending(s, c) then c else d;
      SendersComeFromClaims(s, op, young);
      NewMaySend(s, op.key, op.operation, op.payload, t.calls[young]);
      if Sending(s, other) {
        MaySendStep(s, op, other);
      } else {
        SendersComeFromClaims(s, op, other);
      }
    }
  }

  lemma {:induction false} OnceEachInEveryRun(ops: seq<Op>)
    ensures OnceEach(Run(EMPTY, ops))
  {
    if ops != [] {
      var init, last := ops[..|ops| - 1], ops[|ops| - 1];
      OnceEachInEveryRun(init);
      RememberedStep(Run(EMPTY, init), last);
      SpacedStep(Run(EMPTY, init), last);
      SendersStep(Run(EMPTY, init), last);
    }
  }

  /** Across concurrent callers, failures, lost replies and restarts: two mutations with the
      same owner, target and request id are only ever sent when their claims are more than
      the 30 days of retention apart. Within retention each request is sent at most once. */
  lemma AtMostOncePerRequest(ops: seq<Op>, i: nat, j: nat)
    requires i < j < |Run(EMPTY, ops).sent|
    requires SameRequest(Run(EMPTY, ops).sent[i].key, Run(EMPTY, ops).sent[j].key)
    ensures Run(EMPTY, ops).sent[i].claimedAt + RETENTION < Run(EMPTY, ops).sent[j].claimedAt <= Run(EMPTY, ops).now
  {
    OnceEachInEveryRun(ops);
  }

  // ---- Only the owner's mutations reach a session ---------------------------------------

  ghost predicate CallsOwned(s: State) {
    forall c :: c in s.calls ==> Owns(s.sessions, s.calls[c].session, s.calls[c].key) && s.calls[c].key in s.ledger
  }

  lemma OwnedStep(s: State, op: Op)
    requires CallsOwned(s)
    ensures CallsOwned(Step(s, op))
  {
    var t := Step(s, op);
    forall c | c in t.calls
      ensures Owns(t.sessions, t.calls[c].session, t.calls[c].key) && t.calls[c].key in t.ledger
    {
      if c in s.calls {
        CallKept(s, op, c);
        SessionNeverReassigned(s, op, s.calls[c].session);
        RequestNeverReassigned(s, op, s.calls[c].key);
      }
    }
  }

  lemma CallKept(s: State, op: Op, c: nat)
    requires c in s.calls && c in Step(s, op).calls
    ensures !op.Restart? && Step(s, op).calls[c].key == s.calls[c].key
    ensures Step(s, op).calls[c].session == s.calls[c].session
  {
  }

  lemma {:induction false} OwnedInEveryRun(ops: seq<Op>)
    ensures CallsOwned(Run(EMPTY, ops))
  {
    if ops != [] {
      OwnedInEveryRun(ops[..|ops| - 1]);
      OwnedStep(Run(EMPTY, ops[..|ops| - 1]), ops[|ops| - 1]);
    }
  }

  /** Whenever a mutation is sent, the session table gives the session to its sender. */
  lemma SentOnlyByOwner(ops: seq<Op>, op: Op)
    requires |Step(Run(EMPTY, ops), op).sent| > |Run(EMPTY, ops).sent|
    ensures var s, t := Run(EMPTY, ops), Step(Run(EMPTY, ops), op);
            Owns(s.sessions, t.sent[|s.sent|].session, t.sent[|s.sent|].key)
  {
    OwnedInEveryRun(ops);
    SentGrows(Run(EMPTY, ops), op);
  }

  // ---- A stored reply stays ---------------------------------------------------------------

  /** A finished mutation: its reply is stored. */
  predicate Finished(s: State, key: Key, response: Json) {
    && key in s.ledger && !s.ledger[key].operation.Create?
    && s.ledger[key].state.Complete? && s.ledger[key].response == Some(response)
  }

  ghost predicate NoneInFlight(s: State, key: Key) {
    forall c :: c in s.calls ==> s.calls[c].key != key
  }

  ghost predicate CreationsGood(s: State) {
    forall c :: c in s.creations ==>
      s.creations[c].key in s.ledger && s.ledger[s.creations[c].key].operation.Create?
  }

  lemma CreationKept(s: State, op: Op, c: nat)
    requires c in s.creations && c in Step(s, op).creations
    ensures !op.Restart? && Step(s, op).creations[c] == s.creations[c]
  {
  }

  lemma CreationsStep(s: State, op: Op)
    requires CreationsGood(s)
    ensures CreationsGood(Step(s, op))
  {
    var t := Step(s, op);
    forall c | c in t.creations
      ensures t.creations[c].key in t.ledger && t.ledger[t.creations[c].key].operation.Create?
    {
      if c in s.creations {
        CreationKept(s, op, c);
        RequestNeverReassigned(s, op, s.creations[c].key);
      }
    }
  }

  lemma {:induction false} CreationsInEveryRun(ops: seq<Op>)
    ensures CreationsGood(Run(EMPTY, ops))
  {
    if ops != [] {
      CreationsInEveryRun(ops[..|ops| - 1]);
      CreationsStep(Run(EMPTY, ops[..|ops| - 1]), ops[|ops| - 1]);
    }
  }

  /** The rest of a run leaves the row alone from outside: no request lookup completes this
      very key as a creation, and the row stays within retention. */
  predicate Undisturbed(s: State, key: Key, op: Op) {
    && !(op.LookupCompletes? && op.key == key)
    && (op.Restart? ==> key in s.ledger && s.now <= s.ledger[key].updatedAt + RETENTION)
  }

  ghost predicate AllUndisturbed(s: State, key: Key, ops: seq<Op>) {
    ops != [] ==>
      && AllUndisturbed(s, key, ops[..|ops| - 1])
      && Undisturbed(Run(s, ops[..|ops| - 1]), key, ops[|ops| - 1])
  }

  lemma FinishedStays(s: State, op: Op, key: Key, response: Json)
    requires Finished(s, key, response) && NoneInFlight(s, key) && CreationsGood(s) && Undisturbed(s, key, op)
    ensures key in Step(s, op).ledger && Step(s, op).ledger[key] == s.ledger[key]
    ensures NoneInFlight(Step(s, op), key)
  {
    var t := Step(s, op);
    forall c | c in t.calls
      ensures t.calls[c].key != key
    {
      if c in s.calls {
        CallKept(s, op, c);
      }
    }
  }

  lemma {:induction false} FinishedForever(s: State, ops: seq<Op>, key: Key, response: Json)
    requires Finished(s, key, response) && NoneInFlight(s, key) && CreationsGood(s)
    requires AllUndisturbed(s, key, ops)
    ensures key in Run(s, ops).ledger && Run(s, ops).ledger[key] == s.ledger[key]
    ensures NoneInFlight(Run(s, ops), key) && CreationsGood(Run(s, ops))
  {
    if ops != [] {
      FinishedForever(s, ops[..|ops| - 1], key, response);
      FinishedStays(Run(s, ops[..|ops| - 1]), ops[|ops| - 1], key, response);
      CreationsStep(Run(s, ops[..|ops| - 1]), ops[|ops| - 1]);
    }
  }

  /** A repeat with the same body, by the same owner, is answered with the stored reply. */
  predicate Repeats(s: State, session: string, key: Key, operation: Operation, payload: Json, response: Json) {
    Owns(s.sessions, session, key) ==> BeginOutcome(s, session, key, operation, payload) == Cached(response)
  }

  lemma FinishedRepeats(s: State, session: string, key: Key, response: Json)
    requires Finished(s, key, response) && OneRowPerRequest(s.ledger)
    ensures Repeats(s, session, key, s.ledger[key].operation, s.ledger[key].fingerprint, response)
  {
  }

  /** A late overlapping duplicate overwrites the stored reply. */
  lemma DuplicateOverwrites(s: State, key: Key, response: Json, c: nat)
    requires Finished(s, key, response) && c in s.calls && s.calls[c].key == key
    ensures var t := Step(Step(s, LoseReply(c)), Answer(c, NotFinished(false, response)));
            key in t.ledger && t.ledger[key].state.OutcomeUnknown?
  {
  }

  lemma RunTwo(s: State, a: Op, b: Op)
    ensures Run(s, [a, b]) == Step(Step(s, a), b)
  {
    assert [a, b][..1] == [a] && [a][..0] == [];
    assert Run(s, [a][..0]) == s;
    assert Run(s, [a]) == Step(s, a);
  }

  lemma TwoUndisturbed(s: State, key: Key, a: Op, b: Op)
    requires !a.LookupCompletes? && !a.Restart? && !b.LookupCompletes? && !b.Restart?
    ensures AllUndisturbed(s, key, [a, b])
  {
    assert [a, b][..1] == [a] && [a][..0] == [];
    assert AllUndisturbed(s, key, [a][..0]) && AllUndisturbed(s, key, [a]);
  }

  /** The stored reply of a finished mutation is what every later repeat gets, with the row
      unchanged and hence without calling Hermes, exactly when no other call with its key
      is still in flight. */
  lemma StoredReplyIsFinalIff(before: seq<Op>, key: Key, response: Json)
    requires Finished(Run(EMPTY, before), key, response)
    ensures (forall ops :: AllUndisturbed(Run(EMPTY, before), key, ops) ==>
               Finished(Run(Run(EMPTY, before), ops), key, response))
       <==> NoneInFlight(Run(EMPTY, before), key)
  {
    var s := Run(EMPTY, before);
    CreationsInEveryRun(before);
    if NoneInFlight(s, key) {
      forall ops | AllUndisturbed(s, key, ops)
        ensures Finished(Run(s, ops), key, response)
      {
        FinishedForever(s, ops, key, response);
      }
    } else {
      var c :| c in s.calls && s.calls[c].key == key;
      var a, b := LoseReply(c), Answer(c, NotFinished(false, response));
      DuplicateOverwrites(s, key, response, c);
      RunTwo(s, a, b);
      TwoUndisturbed(s, key, a, b);
      assert !Finished(Run(s, [a, b]), key, response);
    }
  }

  /** So the reply is served, and Hermes is left alone, for as long as the row lives. */
  lemma StoredReplyIsServed(before: seq<Op>, ops: seq<Op>, session: string, key: Key, response: Json)
    requires Finished(Run(EMPTY, before), key, response) && NoneInFlight(Run(EMPTY, before), key)
    requires AllUndisturbed(Run(EMPTY, before), key, ops)
    ensures var s, t := Run(EMPTY, before), Run(Run(EMPTY, before), ops);
            Repeats(t, session, key, s.ledger[key].operation, s.ledger[key].fingerprint, response)
  {
    var s := Run(EMPTY, before);
    CreationsInEveryRun(before);
    FinishedForever(s, ops, key, response);
    TablesInEveryRun(before);
    TablesStay(s, ops);
    FinishedRepeats(Run(s, ops), session, key, response);
  }

  lemma {:induction false} TablesStay(s: State, ops: seq<Op>)
    requires TablesGood(s)
    ensures TablesGood(Run(s, ops))
  {
    if ops != [] {
      TablesStay(s, ops[..|ops| - 1]);
      TablesStep(Run(s, ops[..|ops| - 1]), ops[|ops| - 1]);
    }
  }

  // ---- The service object -------------------------------------------------------------------

  class RealtimeProxyService {
    const store: RealtimeMappingStore
    var calls: map<nat, Call>
    var creations: map<nat, Creation>
    var now: nat
    ghost var sent: seq<Sent>

    ghost function View(): State
      reads this, store
    {
      State(store.ledger, store.sessions, calls, creations, sent, now)
    }

    constructor (store: RealtimeMappingStore, now: nat)
      requires store.Valid()
      ensures this.store == store && View() == State(store.ledger, store.sessions, map[], map[], [], now)
    {
      this.store, this.now := store, now;
      calls, creations, sent := map[], map[], [];
    }

    /** session_action, manual_control, resolve_approval and delete_session up to their
        first await. */
    method BeginMutation(c: nat, session: string, key: Key, operation: Operation, payload: Json)
      returns (outcome: Outcome)
      requires store.Valid() && c !in calls && WellAddressed(Begin(c, session, key, operation, payload))
      modifies this`calls, store`ledger
      ensures store.Valid()
      ensures outcome == BeginOutcome(old(View()), session, key, operation, payload)
      ensures View() == Step(old(View()), Begin(c, session, key, operation, payload))
    {
      var mapping := store.RequireSession(session, key.owner, key.target);
      if mapping.None? {
        return NoSession;
      }
      var claim := store.ClaimRequest(key, operation, payload, now);
      if claim.Conflict? {
        return Rejected;
      }
      if claim == Existing(Complete) {
        var cached := store.RequestResponse(key);
        if cached.Some? {
          return Cached(cached.value);
        }
      }
      calls := calls[c := Call(session, key, operation, if claim.New? then ToSend else LookingUp, now)];
      outcome := Started;
    }

    method TransmitMutation(c: nat)
      requires c in calls && calls[c].phase.ToSend?
      modifies this`calls, this`sent
      ensures View() == Step(old(View()), Transmit(c))
    {
      sent := sent + [Sent(calls[c].key, calls[c].session, calls[c].claimedAt)];
      calls := calls[c := calls[c].(phase := AwaitReply)];
    }

    /** The reply was lost: reconcile by asking for the request's result. */
    method Reconcile(c: nat)
      requires c in calls
      modifies this`calls
      ensures View() == Step(old(View()), LoseReply(c))
    {
      calls := calls[c := calls[c].(phase := LookingUp)];
    }

    method FinishMutation(c: nat, reply: Reply) returns (response: Json)
      requires store.Valid() && c in calls && !calls[c].phase.ToSend?
      modifies this`calls, store
      ensures store.Valid() && response == reply.response
      ensures View() == Step(old(View()), Answer(c, reply))
    {
      var call := calls[c];
      calls := calls - {c};
      response := reply.response;
      match reply
      case NotFinished(known, _) =>
        store.SetRequestState(call.key, if known then InProgress else OutcomeUnknown, Some(response), now);
      case Final(_, sessionState) =>
        if sessionState.Some? {
          store.UpdateSession(call.session, sessionState.value, None, now);
        }
        store.SetRequestState(call.key, Complete, Some(response), now);
    }

    method Abandon(c: nat)
      modifies this`calls
      ensures View() == Step(old(View()), Fail(c))
    {
      calls := calls - {c};
    }

    method BeginCreation(c: nat, key: Key, payload: Json) returns (ok: bool)
      requires store.Valid() && c !in creations
      modifies this`creations, store`ledger
      ensures store.Valid() && View() == Step(old(View()), BeginCreate(c, key, payload))
      ensures ok <==> c in creations
    {
      var claim := store.ClaimRequest(key, Create, payload, now);
      ok := !claim.Conflict?;
      if ok {
        creations := creations[c := Creation(key)];
      }
    }

    method FinishCreation(c: nat, id: string, row: Session) returns (ok: bool)
      requires store.Valid() && c in creations && Records(row, creations[c].key, now)
      modifies this`creations, store
      ensures store.Valid() && View() == Step(old(View()), Created(c, id, row))
    {
      var key := creations[c].key;
      creations := creations - {c};
      ok := store.RecordSession(id, row);
      if ok {
        store.SetRequestState(key, Complete, None, now);
      }
    }
  }
}
