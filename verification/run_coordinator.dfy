/** The coordinator object (backend/voice_console/run_coordinator.py): each method is one
    stretch of code between two awaits, proved to take exactly the cell step of
    RunLifecycle for its run and to leave every other run alone. */
module RunCoordinator {
  import opened Options
  import opened RunStore
  import opened RunLifecycle

  function Count(m: map<string, nat>, id: string): nat {
    if id in m then m[id] else 0
  }

  function Reconcilers(runs: map<string, Row>, ids: set<string>): map<string, Active> {
    map id | id in runs && id in ids :: Active(runs[id], Reconciling)
  }

  /** The runs a new process takes up again. */
  function RecoverableIds(runs: map<string, Row>): set<string> {
    set id | id in runs && Recoverable(runs[id])
  }

  lemma ReconcilersNext(runs: map<string, Row>, all: set<string>, todo: set<string>, id: string)
    requires todo <= all <= runs.Keys && id in todo
    ensures all - (todo - {id}) == (all - todo) + {id}
    ensures Reconcilers(runs, all - (todo - {id}))
         == Reconcilers(runs, all - todo)[id := Active(runs[id], Reconciling)]
  {
  }

  /** The table and the machine hold the same rows. */
  ghost predicate SameRows(runs: map<string, Row>, s: State) {
    forall x :: Lookup(runs, x) == Get(s, x).row
  }

  /** The table's unique column is the machine's test for a run id that is taken. */
  lemma TakenIsRunIdTaken(runs: map<string, Row>, s: State, id: string, runId: string)
    requires SameRows(runs, s) && Sound(Get(s, id)) && Get(s, id).starting.Some?
    ensures Taken(runs, id, Some(runId)) <==> RunIdTaken(s, runId)
  {
    if RunIdTaken(s, runId) {
      var x :| x in s.cells && s.cells[x].row.Some? && s.cells[x].row.value.runId == Some(runId);
      assert Lookup(runs, x) == Get(s, x).row;
    }
    if Taken(runs, id, Some(runId)) {
      var x :| x in runs && x != id && runs[x].runId == Some(runId);
      assert Lookup(runs, x) == Get(s, x).row;
    }
  }

  /** The table's two queries are the machine's two fences. */
  lemma FencesAreMirrored(runs: map<string, Row>, s: State, target: string, conversation: string, owner: string)
    requires SameRows(runs, s)
    ensures (forall x :: x in runs ==> !Fences(runs[x], owner, target) && !Locks(runs[x], conversation, owner))
       <==> !FencedOff(s, owner, target) && !Locked(s, conversation, owner)
  {
    forall x | x in runs
      ensures x in s.cells && s.cells[x].row == Some(runs[x])
    {
      assert Lookup(runs, x) == Get(s, x).row;
    }
    forall x | x in s.cells && s.cells[x].row.Some?
      ensures x in runs && s.cells[x].row == Some(runs[x])
    {
      assert Lookup(runs, x) == Get(s, x).row;
    }
  }

  class Coordinator {
    const store: ConsoleStore
    var actives: map<string, Active>   // ActiveRun objects alive in this process
    var registered: set<string>        // the ones self._active still lists
    var starting: map<string, Phase>
    var approving: map<string, nat>
    var stopping: map<string, nat>
    var now: nat
    ghost var used: set<string>
    ghost var posts: map<string, nat>
    ghost var terminals: map<string, nat>

    ghost function CellOf(id: string): Cell
      reads this, store
    {
      Cell(Lookup(store.runs, id), Lookup(actives, id), id in registered, Lookup(starting, id),
           Count(approving, id), Count(stopping, id), id in used, Count(posts, id), Count(terminals, id))
    }

    /** This run takes the step, and no other run changes. */
    twostate predicate Takes(id: string, op: Op)
      reads this, store
    {
      && now == old(now)
      && CellOf(id) == CellStep(old(CellOf(id)), op, now)
      && forall x :: x != id ==> CellOf(x) == old(CellOf(x))
    }

    constructor (store: ConsoleStore)
      requires store.runs == map[]
      ensures this.store == store && forall id :: CellOf(id) == BLANK
    {
      this.store := store;
      actives, registered, starting, approving, stopping := map[], {}, map[], map[], map[];
      used, posts, terminals, now := {}, map[], map[], 0;
    }

    /** start(), up to its first await: the two fences and the insert. */
    method BeginStart(id: string, target: string, conversation: string, owner: string) returns (ok: bool)
      requires CellOf(id) == BLANK
      modifies this, store
      ensures now == old(now)
      ensures ok <==> forall x :: x in old(store.runs) ==>
                !Fences(old(store.runs)[x], owner, target) && !Locks(old(store.runs)[x], conversation, owner)
      ensures CellOf(id) == if !ok then BLANK
                            else BLANK.(used := true, row := Some(NewRow(target, conversation, owner)),
                                        starting := Some(BeforePost))
      ensures forall x :: x != id ==> CellOf(x) == old(CellOf(x))
    {
      ok := false;
      var fence := store.AcceptanceUnknownFor(owner, target);
      if fence.Some? {
        return;
      }
      var existing := store.ActiveRunForConversation(conversation, owner);
      if existing.Some? {
        return;
      }
      var _ := store.InsertRun(id, target, conversation, owner);
      used := used + {id};
      starting := starting[id := BeforePost];
      ok := true;
    }

    method SendPost(id: string)
      requires id in starting && starting[id] == BeforePost && id in store.runs
      modifies this
      ensures Takes(id, Post(id))
    {
      posts := posts[id := Count(posts, id) + 1];
      starting := starting[id := Posted];
    }

    method StartRaises(id: string, ambiguous: bool)
      requires id in starting && id in store.runs && (ambiguous ==> starting[id] == Posted)
      modifies this, store
      ensures Takes(id, if ambiguous then StartAmbiguous(id) else StartFails(id))
    {
      starting := starting - {id};
      if ambiguous {
        var _ := store.UpdateRun(id, Change(None, Some(AcceptanceUnknown), None, Some("ambiguous_submission"), false), now);
      } else {
        var _ := store.UpdateRun(id, Change(None, Some(Rejected), None, Some("submission_failed"), true), now);
      }
    }

    /** _emit, without the ring and the queues (FanOut.ActiveRun.EmitEvent). */
    method EmitKind(id: string, kind: Kind)
      requires id in actives && id in store.runs
      modifies store, this`actives, this`registered, this`terminals
      ensures CellOf(id) == Emit(old(CellOf(id)), kind, now)
      ensures forall x :: x != id ==> CellOf(x) == old(CellOf(x))
    {
      var active := actives[id];
      var row := store.UpdateRun(id, EmitChange(active.record, kind), now);
      actives := actives[id := active.(record := row.value)];
      if TerminalKind(kind) {
        registered := registered - {id};
        terminals := terminals[id := Count(terminals, id) + 1];
      }
    }

    /** False stands for the unique-key error of a repeated run id. */
    method Accept(id: string, runId: string) returns (ok: bool)
      requires id in starting && starting[id] == Posted && id in store.runs
      modifies this, store
      ensures ok <==> !Taken(old(store.runs), id, Some(runId))
      ensures ok ==> Takes(id, StartAccepted(id, runId))
      ensures !ok ==> Takes(id, StartAbandoned(id))
    {
      ok := RecordAcceptance(id, runId);
      if ok {
        Register(id, store.runs[id]);
        EmitKind(id, OtherKind);
      }
    }

    method RecordAcceptance(id: string, runId: string) returns (ok: bool)
      requires id in starting && id in store.runs
      modifies this`starting, store
      ensures ok <==> !Taken(old(store.runs), id, Some(runId))
      ensures id in store.runs
      ensures CellOf(id) == old(CellOf(id)).(starting := None, row := Some(
                if ok then Apply(old(store.runs)[id], Change(Some(runId), Some(Running), None, None, false), now)
                else old(store.runs)[id]))
      ensures forall x :: x != id ==> CellOf(x) == old(CellOf(x))
    {
      starting := starting - {id};
      var row := store.UpdateRun(id, Change(Some(runId), Some(Running), None, None, false), now);
      ok := row.Some?;
    }

    method Register(id: string, record: Row)
      modifies this`actives, this`registered
      ensures CellOf(id) == old(CellOf(id)).(active := Some(Active(record, Consuming)), registered := true)
      ensures forall x :: x != id ==> CellOf(x) == old(CellOf(x))
    {
      actives := actives[id := Active(record, Consuming)];
      registered := registered + {id};
    }

    method OnStreamEvent(id: string, kind: Kind)
      requires id in actives && actives[id].task.Consuming? && id in store.runs
      modifies this, store
      ensures Takes(id, StreamEvent(id, kind))
    {
      if TerminalKind(kind) {
        actives := actives[id := actives[id].(task := Finished)];
      }
      EmitKind(id, kind);
    }

    method OnStreamEnd(id: string, lost: bool)
      requires id in actives && actives[id].task.Consuming? && id in store.runs
      modifies this
      ensures Takes(id, StreamEnds(id, lost))
    {
      if lost || !Terminal(actives[id].record.status) {
        actives := actives[id := actives[id].(task := Reconciling)];
      } else {
        actives := actives[id := actives[id].(task := Finished)];
      }
    }

    method Settle(id: string, status: Status, failure: Option<string>, kind: Kind)
      requires id in actives && id in store.runs
      modifies store, this`actives, this`registered, this`terminals
      ensures CellOf(id) == SetThenEmit(old(CellOf(id)), status, failure, kind, now)
      ensures forall x :: x != id ==> CellOf(x) == old(CellOf(x))
    {
      var row := store.UpdateRun(id, Change(None, Some(status), None, failure, false), now);
      actives := actives[id := Active(row.value, Finished)];
      EmitKind(id, kind);
    }

    /** One turn of the reconcile loop, after the lookup has answered. */
    method OnLookup(id: string, reply: Reply)
      requires id in actives && actives[id].task.Reconciling? && id in store.runs
      modifies this, store
      ensures Takes(id, Reconcile(id, reply))
    {
      ApplyLookup(id, reply);
    }

    method ApplyLookup(id: string, reply: Reply)
      requires id in actives && id in store.runs
      modifies this`actives, this`registered, this`terminals, store
      ensures CellOf(id) == Reconciled(old(CellOf(id)), reply, now)
      ensures forall x :: x != id ==> CellOf(x) == old(CellOf(x))
    {
      match reply
      case Missing => Settle(id, Unrecoverable, Some("run_unrecoverable"), OtherKind);
      case SaysCompleted => Settle(id, Completed, None, AgentCompleted);
      case SaysCancelled => Settle(id, Cancelled, None, AgentStopped);
      case SaysFailed => Settle(id, Failed, Some("target_failed"), AgentFailed);
      case SaysWaiting =>
        actives := actives[id := actives[id].(task := Finished)];
        EmitKind(id, OtherKind);
      case SaysOther =>
      case GivesUp =>
        actives := actives[id := actives[id].(task := Finished)];
    }

    method BeginApprove(id: string, owner: string) returns (ok: bool)
      modifies this
      ensures Takes(id, ApproveBegin(id, owner))
      ensures ok <==> id in store.runs && store.runs[id].owner == owner && id in registered
    {
      ok := id in store.runs && store.runs[id].owner == owner && id in registered;
      if ok {
        approving := approving[id := Count(approving, id) + 1];
      }
    }

    method OnApproved(id: string, ok: bool)
      requires Count(approving, id) > 0 && id in store.runs
      modifies this, store
      ensures Takes(id, ApproveReply(id, ok))
    {
      approving := approving[id := approving[id] - 1];
      if ok && id in actives && !Terminal(actives[id].record.status) {
        EmitKind(id, ApprovalResolved);
      }
    }

    /** Only a stop that found the ActiveRun emits when Hermes has answered. */
    method BeginStop(id: string, owner: string) returns (found: bool)
      modifies this
      ensures Takes(id, StopBegin(id, owner))
      ensures found <==> id in store.runs && store.runs[id].owner == owner
    {
      found := id in store.runs && store.runs[id].owner == owner;
      if found && id in registered {
        stopping := stopping[id := Count(stopping, id) + 1];
      }
    }

    method OnStopped(id: string, ok: bool)
      requires Count(stopping, id) > 0 && id in store.runs
      modifies this, store
      ensures Takes(id, StopReply(id, ok))
    {
      stopping := stopping[id := stopping[id] - 1];
      if ok && id in actives {
        EmitKind(id, OtherKind);
      }
    }

    method AcknowledgeUnknown(id: string, owner: string) returns (ok: bool)
      modifies store
      ensures Takes(id, AckUnknown(id, owner))
      ensures ok <==> id in old(store.runs) && old(store.runs)[id].owner == owner
                      && old(store.runs)[id].status == AcceptanceUnknown
    {
      ok := store.AcknowledgeUnknown(id, owner, now);
    }

    /** The registry entry goes first, whatever the store then says. A run without a run id is
        one no run id can name: the registry holds nothing for it, and the store finds nothing. */
    method AcknowledgeUnrecoverable(id: string, owner: string) returns (ok: bool)
      modifies this, store
      ensures Takes(id, AckUnrecoverable(id, owner))
      ensures ok <==> id in old(store.runs) && old(store.runs)[id].runId.Some?
                      && old(store.runs)[id].owner == owner && old(store.runs)[id].status == Unrecoverable
    {
      ok := id in store.runs && store.runs[id].runId.Some?;
      if ok {
        registered := registered - {id};
        ok := store.AcknowledgeUnrecoverable(id, owner, now);
      }
    }

    /** Every run takes the restart step of its cell. */
    twostate predicate Restarts(retention: nat)
      reads this, store
    {
      now == old(now) && forall x :: CellOf(x) == Recovered(old(CellOf(x)), OlderThan(now, retention))
    }

    /** A new process: cleanup, then an ActiveRun for every run Hermes may still know. */
    method Recover(retention: nat)
      modifies this, store
      ensures store.runs == map x | x in old(store.runs) && !Expired(old(store.runs)[x], OlderThan(now, retention))
                                    :: old(store.runs)[x]
      ensures actives == Reconcilers(store.runs, RecoverableIds(store.runs))
      ensures Restarts(retention)
    {
      Forget();
      var _ := store.CleanupTerminal(OlderThan(now, retention));
      Reactivate();
    }

    method Forget()
      modifies this`actives, this`registered, this`starting, this`approving, this`stopping
      ensures actives == map[] && registered == {} && starting == map[] && approving == map[] && stopping == map[]
    {
      actives, registered, starting, approving, stopping := map[], {}, map[], map[], map[];
    }

    method Reactivate()
      requires actives == map[] && registered == {}
      modifies this`actives, this`registered
      ensures actives == Reconcilers(store.runs, RecoverableIds(store.runs))
      ensures registered == actives.Keys
    {
      var todo := RecoverableIds(store.runs);
      ghost var all := todo;
      while todo != {}
        invariant todo <= all
        invariant actives == Reconcilers(store.runs, all - todo) && registered == actives.Keys
        decreases |todo|
      {
        var id :| id in todo;
        ReconcilersNext(store.runs, all, todo, id);
        todo := todo - {id};
        Track(id);
      }
      assert all - {} == all;
    }

    method Track(id: string)
      requires id in store.runs && registered == actives.Keys
      modifies this`actives, this`registered
      ensures actives == old(actives)[id := Active(store.runs[id], Reconciling)] && registered == actives.Keys
    {
      actives := actives[id := Active(store.runs[id], Reconciling)];
      registered := registered + {id};
    }

    // ---- The object follows the machine --------------------------------------------------

    /** Every run of the object is a cell of the machine. */
    ghost predicate Mirrors(s: State)
      reads this, store
    {
      now == s.now && forall x :: CellOf(x) == Get(s, x)
    }

    /** What takes a run's own step takes the machine's. */
    twostate lemma TakesMachineStep(s: State, op: Op)
      requires old(Mirrors(s)) && !op.Start? && !op.StartAccepted? && !op.Restart? && !op.Tick?
      requires Takes(op.id, op)
      ensures Mirrors(Step(s, op))
    {
      forall x
        ensures CellOf(x) == Get(Step(s, op), x)
      {
        StepAt(s, op, x);
      }
    }

    twostate lemma RowsAreMirrored(s: State)
      requires old(Mirrors(s))
      ensures SameRows(old(store.runs), s)
    {
      forall x
        ensures Lookup(old(store.runs), x) == Get(s, x).row
      {
        assert old(CellOf(x)) == Get(s, x);
      }
    }

    twostate lemma AcceptTakesMachineStep(s: State, id: string, runId: string, outcome: Op)
      requires old(Mirrors(s)) && Sound(Get(s, id)) && Get(s, id).starting.Some?
      requires outcome == if Taken(old(store.runs), id, Some(runId)) then StartAbandoned(id)
                          else StartAccepted(id, runId)
      requires Takes(id, outcome)
      ensures Mirrors(Step(s, StartAccepted(id, runId)))
    {
      RowsAreMirrored(s);
      TakenIsRunIdTaken(old(store.runs), s, id, runId);
      forall x
        ensures CellOf(x) == Get(Step(s, StartAccepted(id, runId)), x)
      {
        StepAt(s, StartAccepted(id, runId), x);
      }
    }

    twostate lemma StartTakesMachineStep(s: State, id: string, target: string, conversation: string, owner: string,
                                         ok: bool)
      requires old(Mirrors(s)) && old(CellOf(id)) == BLANK && now == old(now)
      requires ok <==> forall x :: x in old(store.runs) ==>
                 !Fences(old(store.runs)[x], owner, target) && !Locks(old(store.runs)[x], conversation, owner)
      requires CellOf(id) == if !ok then BLANK
                             else BLANK.(used := true, row := Some(NewRow(target, conversation, owner)),
                                         starting := Some(BeforePost))
      requires forall x :: x != id ==> CellOf(x) == old(CellOf(x))
      ensures Mirrors(Step(s, Start(id, target, conversation, owner)))
    {
      RowsAreMirrored(s);
      FencesAreMirrored(old(store.runs), s, target, conversation, owner);
      forall x
        ensures CellOf(x) == Get(Step(s, Start(id, target, conversation, owner)), x)
      {
        StepAt(s, Start(id, target, conversation, owner), x);
      }
    }

    twostate lemma RecoverTakesMachineStep(s: State, retention: nat)
      requires old(Mirrors(s)) && Restarts(retention)
      ensures Mirrors(Step(s, Restart(retention)))
    {
      forall x
        ensures CellOf(x) == Get(Step(s, Restart(retention)), x)
      {
        StepAt(s, Restart(retention), x);
      }
    }
  }
}
