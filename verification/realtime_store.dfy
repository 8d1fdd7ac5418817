/** The durable request ledger and session table (backend/voice_console/realtime/store.py).
    A BEGIN IMMEDIATE block is one step; the fingerprint of a payload is the payload. */
module RealtimeStore {
  import opened Options

  const RETENTION: nat := 30 * 86400

  type Json = string

  datatype Operation =
    | Create | Activate | Input | Interrupt | AudioCommit | AudioDiscard | TurnModeUpdate | Approval | Delete

  datatype RequestState = Pending | InProgress | OutcomeUnknown | Complete

  /** The ledger's declared primary key. */
  datatype Key = Key(owner: string, target: string, scope: string, request: string)

  predicate SameRequest(a: Key, b: Key) {
    a.owner == b.owner && a.target == b.target && a.request == b.request
  }

  datatype Request = Request(
    operation: Operation,
    fingerprint: Json,
    state: RequestState,
    response: Option<Json>,
    updatedAt: nat)

  datatype Session = Session(
    conversation: string,
    target: string,
    owner: string,
    createRequest: string,
    generation: nat,
    state: string,
    lastEventId: Option<string>,
    updatedAt: nat)

  predicate SameIdentity(a: Session, b: Session) {
    && a.conversation == b.conversation && a.target == b.target
    && a.owner == b.owner && a.createRequest == b.createRequest
  }

  type Ledger = map<Key, Request>
  type Sessions = map<string, Session>

  /** At most one row per (owner, target, request id): stronger than the primary key. */
  ghost predicate OneRowPerRequest(ledger: Ledger) {
    forall a, b :: a in ledger && b in ledger && SameRequest(a, b) ==> a == b
  }

  /** One session per (owner, target, conversation, create request). */
  ghost predicate OneSessionPerCreate(sessions: Sessions) {
    forall a, b :: a in sessions && b in sessions && SameIdentity(sessions[a], sessions[b]) ==> a == b
  }

  datatype Claim = New | Existing(state: RequestState) | Conflict

  predicate UsedElsewhere(ledger: Ledger, key: Key) {
    exists k :: k in ledger && SameRequest(k, key) && k.scope != key.scope
  }

  function Claimed(ledger: Ledger, key: Key, operation: Operation, payload: Json): Claim {
    if UsedElsewhere(ledger, key) then Conflict
    else if key in ledger then
      if ledger[key].operation == operation && ledger[key].fingerprint == payload
      then Existing(ledger[key].state) else Conflict
    else New
  }

  function AfterClaim(ledger: Ledger, key: Key, operation: Operation, payload: Json, now: nat): Ledger {
    if Claimed(ledger, key, operation, payload).New?
    then ledger[key := Request(operation, payload, Pending, None, now)] else ledger
  }

  /** set_request_state: an unconditional UPDATE of the row, if there is one. */
  function AfterSet(ledger: Ledger, key: Key, state: RequestState, response: Option<Json>, now: nat): Ledger {
    if key in ledger
    then ledger[key := ledger[key].(state := state, response := response, updatedAt := now)] else ledger
  }

  /** Hermes named a session that belongs to another request, or a second one for this request. */
  predicate Mismatch(sessions: Sessions, id: string, session: Session) {
    || (id in sessions && !SameIdentity(sessions[id], session))
    || exists other :: other in sessions && other != id && SameIdentity(sessions[other], session)
  }

  function AfterRecord(sessions: Sessions, id: string, session: Session): Sessions {
    if Mismatch(sessions, id, session) then sessions
    else if id in sessions then
      sessions[id := sessions[id].(state := session.state, generation := session.generation,
                                   updatedAt := session.updatedAt)]
    else sessions[id := session]
  }

  function AfterUpdate(sessions: Sessions, id: string, state: string, lastEventId: Option<string>, now: nat): Sessions {
    if id !in sessions then sessions
    else sessions[id := sessions[id].(state := state, updatedAt := now,
                                      lastEventId := if lastEventId.Some? then lastEventId else sessions[id].lastEventId)]
  }

  function PurgedLedger(ledger: Ledger, now: nat): Ledger {
    map k | k in ledger && now <= ledger[k].updatedAt + RETENTION :: ledger[k]
  }

  function PurgedSessions(sessions: Sessions, now: nat): Sessions {
    map s | s in sessions && (sessions[s].state != "closed" || now <= sessions[s].updatedAt + RETENTION) :: sessions[s]
  }

  // ---- What each operation does ----------------------------------------------------------

  /** A request id that its owner has used on the target is a conflict for another resource,
      another operation or another payload, and otherwise answers with its state. */
  lemma ClaimDecides(ledger: Ledger, k: Key, key: Key, operation: Operation, payload: Json)
    requires OneRowPerRequest(ledger)
    requires k in ledger && k.owner == key.owner && k.target == key.target && k.request == key.request
    ensures Claimed(ledger, key, operation, payload) ==
            if k.scope == key.scope && ledger[k].operation == operation && ledger[k].fingerprint == payload
            then Existing(ledger[k].state) else Conflict
  {
    assert SameRequest(k, key);
    if k.scope != key.scope {
      assert UsedElsewhere(ledger, key);
    } else {
      assert k == key;
    }
  }

  /** Only a new claim changes the ledger: it inserts one pending row without a reply. */
  lemma ClaimInserts(ledger: Ledger, key: Key, operation: Operation, payload: Json, now: nat)
    ensures AfterClaim(ledger, key, operation, payload, now) ==
            if forall k :: k in ledger ==>
                 !(k.owner == key.owner && k.target == key.target && k.request == key.request)
            then ledger[key := Request(operation, payload, Pending, None, now)] else ledger
  {
    NewIffUnused(ledger, key, operation, payload);
  }

  /** A state is set with its reply on one row, and nothing is inserted. */
  lemma SetDecides(ledger: Ledger, key: Key, state: RequestState, response: Option<Json>, now: nat)
    ensures var after := AfterSet(ledger, key, state, response, now);
            && after.Keys == ledger.Keys
            && (key in ledger ==> after[key] == Request(ledger[key].operation, ledger[key].fingerprint, state, response, now))
            && forall k :: k in ledger && k != key ==> after[k] == ledger[k]
  {
  }

  /** A session is refused when its id belongs to another identity, or its identity has another
      id; a known one is refreshed, a new one inserted. */
  lemma RecordDecides(sessions: Sessions, id: string, session: Session)
    ensures var after := AfterRecord(sessions, id, session);
            if (exists x :: x in sessions && (x == id) != (sessions[x].conversation == session.conversation
                  && sessions[x].target == session.target && sessions[x].owner == session.owner
                  && sessions[x].createRequest == session.createRequest))
            then after == sessions
            else if id in sessions
            then after == sessions[id := Session(sessions[id].conversation, sessions[id].target, sessions[id].owner,
                                                 sessions[id].createRequest, session.generation, session.state,
                                                 sessions[id].lastEventId, session.updatedAt)]
            else after == sessions[id := session]
  {
    if Mismatch(sessions, id, session) {
      if id in sessions && !SameIdentity(sessions[id], session) {
      } else {
        var other :| other in sessions && other != id && SameIdentity(sessions[other], session);
      }
    }
  }

  /** A poll keeps the cursor it is not given. */
  lemma UpdateDecides(sessions: Sessions, id: string, state: string, lastEventId: Option<string>, now: nat)
    ensures var after := AfterUpdate(sessions, id, state, lastEventId, now);
            && after.Keys == sessions.Keys
            && (id in sessions ==>
                  && after[id].state == state && after[id].updatedAt == now
                  && after[id].generation == sessions[id].generation
                  && (lastEventId.Some? ==> after[id].lastEventId == lastEventId)
                  && (lastEventId.None? ==> after[id].lastEventId == sessions[id].lastEventId))
            && forall x :: x in sessions && x != id ==> after[x] == sessions[x]
  {
  }

  /** Opening the database forgets requests untouched for 30 days, and closed sessions. */
  lemma PurgeIff(ledger: Ledger, sessions: Sessions, key: Key, id: string, now: nat)
    ensures key in ledger ==> (key in PurgedLedger(ledger, now) <==> now - ledger[key].updatedAt <= 2592000)
    ensures id in sessions ==>
              (id in PurgedSessions(sessions, now) <==>
                !(sessions[id].state == "closed" && now - sessions[id].updatedAt > 2592000))
  {
  }

  // ---- What the tables keep -----------------------------------------------------------

  lemma ClaimKeepsOneRow(ledger: Ledger, key: Key, operation: Operation, payload: Json, now: nat)
    requires OneRowPerRequest(ledger)
    ensures OneRowPerRequest(AfterClaim(ledger, key, operation, payload, now))
  {
  }

  /** "new" is the answer exactly when no row has this owner, target and request id. */
  lemma NewIffUnused(ledger: Ledger, key: Key, operation: Operation, payload: Json)
    ensures Claimed(ledger, key, operation, payload).New?
       <==> forall k :: k in ledger ==> !SameRequest(k, key)
  {
  }

  /** No operation on the ledger changes what a row was claimed for. */
  lemma ClaimIsImmutable(ledger: Ledger, k: Key, key: Key, operation: Operation, payload: Json,
                         state: RequestState, response: Option<Json>, now: nat)
    requires k in ledger
    ensures k in AfterClaim(ledger, key, operation, payload, now)
         && AfterClaim(ledger, key, operation, payload, now)[k] == ledger[k]
    ensures k in AfterSet(ledger, key, state, response, now)
    ensures AfterSet(ledger, key, state, response, now)[k].operation == ledger[k].operation
    ensures AfterSet(ledger, key, state, response, now)[k].fingerprint == ledger[k].fingerprint
    ensures k in PurgedLedger(ledger, now) ==> PurgedLedger(ledger, now)[k] == ledger[k]
  {
  }

  lemma RecordKeepsOneSession(sessions: Sessions, id: string, session: Session)
    requires OneSessionPerCreate(sessions)
    ensures OneSessionPerCreate(AfterRecord(sessions, id, session))
  {
  }

  /** No operation on the session table changes whose a session is. */
  lemma IdentityIsImmutable(sessions: Sessions, s: string, id: string, session: Session,
                            state: string, lastEventId: Option<string>, now: nat)
    requires s in sessions
    ensures s in AfterRecord(sessions, id, session)
         && SameIdentity(AfterRecord(sessions, id, session)[s], sessions[s])
    ensures s in AfterUpdate(sessions, id, state, lastEventId, now)
         && SameIdentity(AfterUpdate(sessions, id, state, lastEventId, now)[s], sessions[s])
    ensures s in PurgedSessions(sessions, now) ==> PurgedSessions(sessions, now)[s] == sessions[s]
  {
  }

  // ---- The store object ---------------------------------------------------------------

  class RealtimeMappingStore {
    var ledger: Ledger
    var sessions: Sessions

    ghost predicate Valid()
      reads this
    {
      OneRowPerRequest(ledger) && OneSessionPerCreate(sessions)
    }

    /** Opening the database drops what is past its retention. */
    constructor (ledger: Ledger, sessions: Sessions, now: nat)
      requires OneRowPerRequest(ledger) && OneSessionPerCreate(sessions)
      ensures Valid() && this.ledger == PurgedLedger(ledger, now) && this.sessions == PurgedSessions(sessions, now)
    {
      this.ledger := PurgedLedger(ledger, now);
      this.sessions := PurgedSessions(sessions, now);
    }

    method ClaimRequest(key: Key, operation: Operation, payload: Json, now: nat) returns (claim: Claim)
      requires Valid()
      modifies this`ledger
      ensures Valid()
      ensures claim == Claimed(old(ledger), key, operation, payload)
      ensures ledger == AfterClaim(old(ledger), key, operation, payload, now)
    {
      ClaimKeepsOneRow(ledger, key, operation, payload, now);
      if exists k :: k in ledger && SameRequest(k, key) {
        var reused :| reused in ledger && SameRequest(reused, key);
        if reused.scope != key.scope {
          return Conflict;
        }
      }
      if key in ledger {
        if ledger[key].operation != operation || ledger[key].fingerprint != payload {
          return Conflict;
        }
        return Existing(ledger[key].state);
      }
      ledger := ledger[key := Request(operation, payload, Pending, None, now)];
      claim := New;
    }

    method SetRequestState(key: Key, state: RequestState, response: Option<Json>, now: nat)
      requires Valid()
      modifies this`ledger
      ensures Valid() && ledger == AfterSet(old(ledger), key, state, response, now)
    {
      if key in ledger {
        ledger := ledger[key := ledger[key].(state := state, response := response, updatedAt := now)];
      }
    }

    method RequestResponse(key: Key) returns (response: Option<Json>)
      ensures response == if key in ledger then ledger[key].response else None
    {
      response := if key in ledger then ledger[key].response else None;
    }

    /** False stands for the identity mismatch errors. */
    method RecordSession(id: string, session: Session) returns (ok: bool)
      requires Valid()
      modifies this`sessions
      ensures Valid() && ok == !Mismatch(old(sessions), id, session)
      ensures sessions == AfterRecord(old(sessions), id, session)
    {
      RecordKeepsOneSession(sessions, id, session);
      if id in sessions && !SameIdentity(sessions[id], session) {
        return false;
      }
      if exists s :: s in sessions && SameIdentity(sessions[s], session) {
        var existing :| existing in sessions && SameIdentity(sessions[existing], session);
        if existing != id {
          return false;
        }
      }
      if id in sessions {
        sessions := sessions[id := sessions[id].(state := session.state, generation := session.generation,
                                                 updatedAt := session.updatedAt)];
      } else {
        sessions := sessions[id := session];
      }
      ok := true;
    }

    method RequireSession(id: string, owner: string, target: string) returns (session: Option<Session>)
      ensures session.Some? <==> id in sessions && sessions[id].owner == owner && sessions[id].target == target
      ensures session.Some? ==> session.value == sessions[id]
    {
      if id in sessions && sessions[id].owner == owner && sessions[id].target == target {
        return Some(sessions[id]);
      }
      session := None;
    }

    method UpdateSession(id: string, state: string, lastEventId: Option<string>, now: nat)
      requires Valid()
      modifies this`sessions
      ensures Valid() && sessions == AfterUpdate(old(sessions), id, state, lastEventId, now)
    {
      if id in sessions {
        var last := if lastEventId.Some? then lastEventId else sessions[id].lastEventId;
        sessions := sessions[id := sessions[id].(state := state, updatedAt := now, lastEventId := last)];
      }
    }
  }
}
