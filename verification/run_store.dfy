/** The durable table of runs (backend/voice_console/run_store.py). */
module RunStore {
  import opened Options

  datatype Status =
    | Submitting | Running | WaitingForApproval | AcceptanceUnknown | Unrecoverable
    | Completed | Failed | Cancelled | Rejected

  predicate Terminal(status: Status) {
    status in {Completed, Failed, Cancelled, Rejected}
  }

  datatype Row = Row(
    runId: Option<string>,
    target: string,
    conversation: string,
    owner: string,
    status: Status,
    lastSequence: nat,
    failure: Option<string>,
    terminalAt: Option<nat>)

  function NewRow(target: string, conversation: string, owner: string): Row {
    Row(None, target, conversation, owner, Submitting, 0, None, None)
  }

  /** The fields one update names; the others keep their value. */
  datatype Change = Change(
    runId: Option<string>,
    status: Option<Status>,
    lastSequence: Option<nat>,
    failure: Option<string>,
    terminal: bool)

  function Apply(row: Row, change: Change, now: nat): Row {
    row.(
      runId := if change.runId.Some? then change.runId else row.runId,
      status := if change.status.Some? then change.status.value else row.status,
      lastSequence := if change.lastSequence.Some? then change.lastSequence.value else row.lastSequence,
      failure := if change.failure.Some? then change.failure else row.failure,
      terminalAt := if change.terminal then Some(now) else row.terminalAt)
  }

  /** A change writes the fields it names, a terminal one the time, and leaves the rest. */
  lemma ApplyDecides(row: Row, change: Change, now: nat)
    ensures var next := Apply(row, change, now);
            && next.target == row.target && next.conversation == row.conversation && next.owner == row.owner
            && (if change.runId.Some? then next.runId == change.runId else next.runId == row.runId)
            && (if change.status.Some? then Some(next.status) == change.status else next.status == row.status)
            && (if change.lastSequence.Some? then Some(next.lastSequence) == change.lastSequence
                else next.lastSequence == row.lastSequence)
            && (if change.failure.Some? then next.failure == change.failure else next.failure == row.failure)
            && (if change.terminal then next.terminalAt == Some(now) else next.terminalAt == row.terminalAt)
  {
  }

  /** A non-terminal run locks its conversation for its owner. */
  predicate Locks(row: Row, conversation: string, owner: string) {
    row.conversation == conversation && row.owner == owner && !Terminal(row.status)
  }

  /** An acceptance_unknown run fences the whole (owner, target) pair. */
  predicate Fences(row: Row, owner: string, target: string) {
    row.owner == owner && row.target == target && row.status == AcceptanceUnknown
  }

  predicate Expired(row: Row, olderThan: nat) {
    row.terminalAt.Some? && row.terminalAt.value < olderThan
  }

  predicate Recoverable(row: Row) {
    && !Terminal(row.status) && row.runId.Some?
    && row.status != AcceptanceUnknown && row.status != Unrecoverable
  }

  lemma RecoverableIff(row: Row)
    ensures Recoverable(row) <==> row.status in {Submitting, Running, WaitingForApproval} && row.runId.Some?
  {
  }

  /** The unique run id column: another row already has it. */
  predicate Taken(runs: map<string, Row>, id: string, runId: Option<string>) {
    runId.Some? && exists x :: x in runs && x != id && runs[x].runId == runId
  }

  class ConsoleStore {
    var runs: map<string, Row>

    constructor ()
      ensures runs == map[]
    {
      runs := map[];
    }

    method InsertRun(id: string, target: string, conversation: string, owner: string) returns (row: Row)
      requires id !in runs
      modifies this
      ensures row == Row(None, target, conversation, owner, Submitting, 0, None, None)
      ensures runs == old(runs)[id := row]
    {
      row := NewRow(target, conversation, owner);
      runs := runs[id := row];
    }

    /** None stands for the lookup error when the row is gone, and for the unique-key error
        when another row already has the run id. */
    method UpdateRun(id: string, change: Change, now: nat) returns (row: Option<Row>)
      modifies this
      ensures row.Some? <==> (id in old(runs) && !Taken(old(runs), id, change.runId))
      ensures row.Some? ==> row.value == Apply(old(runs)[id], change, now) && runs == old(runs)[id := row.value]
      ensures row.None? ==> runs == old(runs)
    {
      if id !in runs || Taken(runs, id, change.runId) {
        return None;
      }
      runs := runs[id := Apply(runs[id], change, now)];
      row := Some(runs[id]);
    }

    method ActiveRunForConversation(conversation: string, owner: string) returns (id: Option<string>)
      ensures id.None? <==> forall x :: x in runs && runs[x].conversation == conversation && runs[x].owner == owner ==>
                runs[x].status in {Completed, Failed, Cancelled, Rejected}
      ensures id.Some? ==> id.value in runs && Locks(runs[id.value], conversation, owner)
    {
      if exists x :: x in runs && Locks(runs[x], conversation, owner) {
        var x :| x in runs && Locks(runs[x], conversation, owner);
        return Some(x);
      }
      id := None;
    }

    method AcceptanceUnknownFor(owner: string, target: string) returns (id: Option<string>)
      ensures id.None? <==> forall x :: x in runs && runs[x].owner == owner && runs[x].target == target ==>
                runs[x].status != AcceptanceUnknown
      ensures id.Some? ==> id.value in runs && Fences(runs[id.value], owner, target)
    {
      if exists x :: x in runs && Fences(runs[x], owner, target) {
        var x :| x in runs && Fences(runs[x], owner, target);
        return Some(x);
      }
      id := None;
    }

    method AcknowledgeUnknown(id: string, owner: string, now: nat) returns (ok: bool)
      modifies this
      ensures ok <==> id in old(runs) && old(runs)[id].owner == owner && old(runs)[id].status == AcceptanceUnknown
      ensures runs == if !ok then old(runs)
                      else old(runs)[id := old(runs)[id].(status := Failed, failure := Some("owner_acknowledged"),
                                                          terminalAt := Some(now))]
    {
      ok := id in runs && runs[id].owner == owner && runs[id].status == AcceptanceUnknown;
      if ok {
        var _ := UpdateRun(id, Change(None, Some(Failed), None, Some("owner_acknowledged"), true), now);
      }
    }

    method AcknowledgeUnrecoverable(id: string, owner: string, now: nat) returns (ok: bool)
      modifies this
      ensures ok <==> id in old(runs) && old(runs)[id].owner == owner && old(runs)[id].status == Unrecoverable
      ensures runs == if !ok then old(runs)
                      else old(runs)[id := old(runs)[id].(status := Failed,
                                                          failure := Some("owner_acknowledged_unrecoverable"),
                                                          terminalAt := Some(now))]
    {
      ok := id in runs && runs[id].owner == owner && runs[id].status == Unrecoverable;
      if ok {
        var _ := UpdateRun(id, Change(None, Some(Failed), None, Some("owner_acknowledged_unrecoverable"), true), now);
      }
    }

    method CleanupTerminal(olderThan: nat) returns (deleted: nat)
      modifies this
      ensures forall x :: x in old(runs) && x !in runs <==>
                (x in old(runs) && old(runs)[x].terminalAt.Some? && old(runs)[x].terminalAt.value < olderThan)
      ensures forall x :: x in runs ==> x in old(runs) && runs[x] == old(runs)[x]
      ensures runs == map x | x in old(runs) && !Expired(old(runs)[x], olderThan) :: old(runs)[x]
      ensures deleted + |runs| == |old(runs)|
    {
      ghost var was := runs;
      var gone := set x | x in runs && Expired(runs[x], olderThan);
      deleted := |gone|;
      runs := runs - gone;
      assert runs.Keys == was.Keys - gone;
      assert |was.Keys| == |gone| + |was.Keys - gone|;
    }
  }
}
