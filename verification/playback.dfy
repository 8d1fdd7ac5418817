/** The browser's speech queue (frontend/src/lib/playback.ts). The promise chain is the
    list of links ever appended to it together with how many have settled; every
    link, every end of a clip, and every `finally` callback is its own step. */
module Playback {
  import opened Options
  import opened Sequences

  type Turn = t: string | t != "" witness "t"
  type Byte = b: int | 0 <= b < 256

  datatype Clip = Clip(turn: Turn, index: int, data: seq<Byte>)
  datatype Incoming = Incoming(turn: Turn, index: int, chunks: seq<seq<Byte>>)

  /** One link of the chain: the clip and the generation it was queued in. */
  datatype Job = Job(generation: nat, clip: Clip)

  /** A `finally` callback on the chain as it was when `after` links had been appended. */
  datatype Completion = Completion(generation: nat, turn: Turn, after: nat)

  datatype State = State(
    generation: nat,
    activeTurn: Option<Turn>,
    incoming: Option<Incoming>,
    lastChunk: map<Turn, int>,
    jobs: seq<Job>,
    settled: nat,
    playing: bool,
    completions: seq<Completion>,
    started: seq<nat>)  // the links whose clip was handed to the adapter, in time order

  datatype Op =
    | Start(turn: Turn, index: int)
    | PushChunk(chunk: seq<Byte>)
    | End(turn: Turn, index: int)
    | Complete(turn: Turn)
    | Cancel(which: Option<Turn>)
    | RunLink
    | ClipEnds
    | RunCompletion(i: nat)

  ghost const EMPTY := State(0, None, None, map[], [], 0, false, [], [])

  function LastOf(s: State, turn: Turn): int {
    if turn in s.lastChunk then s.lastChunk[turn] else -1
  }

  /** cancel() with no turn, an idle queue, or the active turn takes effect. */
  predicate CancelApplies(s: State, which: Option<Turn>) {
    which.None? || s.activeTurn.None? || which == s.activeTurn
  }

  predicate LinkPlays(s: State, job: Job) {
    job.generation == s.generation && s.activeTurn == Some(job.clip.turn)
  }

  ghost function Step(s: State, op: Op): State {
    match op
    case Start(turn, index) =>
      if index <= LastOf(s, turn) || (s.activeTurn.Some? && s.activeTurn.value != turn) then s
      else s.(activeTurn := Some(turn), incoming := Some(Incoming(turn, index, [])))
    case PushChunk(chunk) =>
      if s.incoming.None? then s
      else s.(incoming := Some(s.incoming.value.(chunks := s.incoming.value.chunks + [chunk])))
    case End(turn, index) =>
      if s.incoming.None? || s.incoming.value.turn != turn || s.incoming.value.index != index then s
      else
        var data := Flatten(s.incoming.value.chunks);
        s.(incoming := None, lastChunk := s.lastChunk[turn := index],
           jobs := s.jobs + (if data == [] then [] else [Job(s.generation, Clip(turn, index, data))]))
    case Complete(turn) =>
      if s.activeTurn != Some(turn) then s
      else s.(completions := s.completions + [Completion(s.generation, turn, |s.jobs|)])
    case Cancel(which) =>
      if !CancelApplies(s, which) then s
      else s.(activeTurn := None, incoming := None, generation := s.generation + 1)
    case RunLink =>
      if s.playing || s.settled >= |s.jobs| then s
      else if LinkPlays(s, s.jobs[s.settled]) then s.(playing := true, started := s.started + [s.settled])
      else s.(settled := s.settled + 1)
    case ClipEnds =>
      if s.playing then s.(playing := false, settled := s.settled + 1) else s
    case RunCompletion(i) =>
      if i >= |s.completions| || s.settled < s.completions[i].after then s
      else
        var c, rest := s.completions[i], s.completions[..i] + s.completions[i + 1..];
        if c.generation == s.generation && s.activeTurn == Some(c.turn)
        then s.(completions := rest, activeTurn := None)
        else s.(completions := rest)
  }

  ghost function Run(s: State, ops: seq<Op>): State {
    if ops == [] then s else Step(Run(s, ops[..|ops| - 1]), ops[|ops| - 1])
  }

  // ---- What each call and each callback does ---------------------------------------------

  /** A clip opens if and only if its index is beyond the last one of its turn and no other turn
      is active; the turn is then active. */
  lemma StartDecides(s: State, turn: Turn, index: int)
    ensures Step(s, Start(turn, index)) ==
            if index > (if turn in s.lastChunk then s.lastChunk[turn] else -1)
               && (s.activeTurn == None || s.activeTurn == Some(turn))
            then s.(activeTurn := Some(turn), incoming := Some(Incoming(turn, index, []))) else s
  {
  }

  /** A chunk goes to the open clip, and nowhere without one. */
  lemma PushDecides(s: State, chunk: seq<Byte>)
    ensures s.incoming.None? ==> Step(s, PushChunk(chunk)) == s
    ensures s.incoming.Some? ==>
              Step(s, PushChunk(chunk))
              == s.(incoming := Some(Incoming(s.incoming.value.turn, s.incoming.value.index,
                                              s.incoming.value.chunks + [chunk])))
  {
  }

  /** The end of the open clip remembers its index and, unless it is empty, queues its bytes in
      the current generation; any other end does nothing. */
  lemma EndDecides(s: State, turn: Turn, index: int)
    ensures var t := Step(s, End(turn, index));
            if s.incoming.Some? && s.incoming.value.turn == turn && s.incoming.value.index == index
            then var data := Flatten(s.incoming.value.chunks);
                 t == s.(incoming := None, lastChunk := s.lastChunk[turn := index],
                         jobs := if data == [] then s.jobs else s.jobs + [Job(s.generation, Clip(turn, index, data))])
            else t == s
  {
    assert s.jobs + [] == s.jobs;
  }

  /** The active turn's completion waits for every link queued so far. */
  lemma CompleteDecides(s: State, turn: Turn)
    ensures Step(s, Complete(turn)) ==
            if s.activeTurn == Some(turn)
            then s.(completions := s.completions + [Completion(s.generation, turn, |s.jobs|)]) else s
  {
  }

  /** A cancel takes effect unless it names a turn while another is active: it ends the active
      turn and the open clip, and a new generation begins. */
  lemma CancelDecides(s: State, which: Option<Turn>)
    ensures Step(s, Cancel(which)) ==
            if which.Some? && s.activeTurn.Some? && which != s.activeTurn then s
            else s.(activeTurn := None, incoming := None, generation := s.generation + 1)
  {
  }

  /** After an effective cancel any turn with a new index opens a clip. */
  lemma CancelFrees(s: State, which: Option<Turn>, turn: Turn, index: int)
    requires which.None? || s.activeTurn.None? || which == s.activeTurn
    requires index > (if turn in s.lastChunk then s.lastChunk[turn] else -1)
    ensures var t := Step(Step(s, Cancel(which)), Start(turn, index));
            && t.activeTurn == Some(turn) && t.incoming == Some(Incoming(turn, index, []))
            && t.generation == s.generation + 1 && t.jobs == s.jobs && t.lastChunk == s.lastChunk
  {
    CancelDecides(s, which);
    StartDecides(Step(s, Cancel(which)), turn, index);
  }

  /** The next link plays if and only if its generation is the current one and its turn is
      active; otherwise it is skipped. A playing clip holds the chain until it ends. */
  lemma LinkDecides(s: State)
    ensures var t := Step(s, RunLink);
            if s.playing || s.settled >= |s.jobs| then t == s
            else if s.jobs[s.settled].generation == s.generation && s.activeTurn == Some(s.jobs[s.settled].clip.turn)
            then t == s.(playing := true, started := s.started + [s.settled])
            else t == s.(settled := s.settled + 1)
    ensures Step(s, ClipEnds) == if s.playing then s.(playing := false, settled := s.settled + 1) else s
  {
  }

  /** A completion runs once its links have settled, and ends the turn if and only if that is
      still active in the generation it was registered in. */
  lemma CompletionDecides(s: State, i: nat)
    ensures var t := Step(s, RunCompletion(i));
            if i < |s.completions| && s.completions[i].after <= s.settled
            then t == s.(completions := s.completions[..i] + s.completions[i + 1..],
                         activeTurn := if s.completions[i].generation == s.generation
                                          && s.activeTurn == Some(s.completions[i].turn)
                                       then None else s.activeTurn)
            else t == s
  {
  }

  // ---- Safety over every run -----------------------------------------------------

  /** Queued indexes of one turn strictly increase, and the last one is remembered. */
  ghost predicate IndexesIncrease(s: State) {
    && (forall i, j :: 0 <= i < j < |s.jobs| && s.jobs[i].clip.turn == s.jobs[j].clip.turn ==>
          s.jobs[i].clip.index < s.jobs[j].clip.index)
    && (forall i :: 0 <= i < |s.jobs| ==> s.jobs[i].clip.index <= LastOf(s, s.jobs[i].clip.turn))
    && (s.incoming.Some? ==> LastOf(s, s.incoming.value.turn) < s.incoming.value.index)
  }

  /** Clips start at most once and in queue order; a playing clip is the last started. */
  ghost predicate StartsInOrder(s: State) {
    && s.settled <= |s.jobs| && (s.playing ==> s.settled < |s.jobs|)
    && (forall i, j :: 0 <= i < j < |s.started| ==> s.started[i] < s.started[j])
    && (forall i :: 0 <= i < |s.started| ==> s.started[i] < s.settled + (if s.playing then 1 else 0))
  }

  ghost predicate GenerationsPast(s: State) {
    forall i :: 0 <= i < |s.jobs| ==> s.jobs[i].generation <= s.generation
  }

  lemma IndexesStep(s: State, op: Op)
    requires IndexesIncrease(s)
    ensures IndexesIncrease(Step(s, op))
  {
  }

  lemma StartsStep(s: State, op: Op)
    requires StartsInOrder(s)
    ensures StartsInOrder(Step(s, op))
  {
  }

  lemma GenerationsStep(s: State, op: Op)
    requires GenerationsPast(s)
    ensures GenerationsPast(Step(s, op))
  {
  }

  /** From the empty queue, whatever is called and whenever the chain runs: the chunk
      indexes queued for a turn strictly increase, and clips start once, in order. */
  lemma {:induction false} QueueOrder(ops: seq<Op>)
    ensures IndexesIncrease(Run(EMPTY, ops)) && StartsInOrder(Run(EMPTY, ops))
    ensures GenerationsPast(Run(EMPTY, ops))
  {
    if ops != [] {
      var init, last := ops[..|ops| - 1], ops[|ops| - 1];
      QueueOrder(init);
      IndexesStep(Run(EMPTY, init), last);
      StartsStep(Run(EMPTY, init), last);
      GenerationsStep(Run(EMPTY, init), last);
    }
  }

  /** The first n links are fenced off: their generation is over. */
  ghost predicate Fenced(s: State, n: nat, startedBefore: nat) {
    && n <= |s.jobs| && startedBefore <= |s.started|
    && (forall i :: 0 <= i < n ==> s.jobs[i].generation < s.generation)
    && (forall i :: startedBefore <= i < |s.started| ==> s.started[i] >= n)
  }

  lemma {:induction false} FenceHolds(s: State, n: nat, k: nat, ops: seq<Op>)
    requires Fenced(s, n, k)
    ensures Fenced(Run(s, ops), n, k)
  {
    if ops != [] {
      FenceHolds(s, n, k, ops[..|ops| - 1]);
    }
  }

  /** After an effective cancel no clip queued before it is ever started. */
  lemma CancelFences(before: seq<Op>, which: Option<Turn>, after: seq<Op>)
    requires CancelApplies(Run(EMPTY, before), which)
    ensures var s := Run(EMPTY, before);
            var t := Run(Step(s, Cancel(which)), after);
            && |s.started| <= |t.started|
            && forall i :: |s.started| <= i < |t.started| ==> t.started[i] >= |s.jobs|
  {
    var s := Run(EMPTY, before);
    QueueOrder(before);
    FenceHolds(Step(s, Cancel(which)), |s.jobs|, |s.started|, after);
  }

  // ---- The queue object --------------------------------------------------------------

  /** Total length first, then each chunk copied at a running offset. */
  method Merge(chunks: seq<seq<Byte>>) returns (merged: array<Byte>)
    ensures fresh(merged) && merged[..] == Flatten(chunks)
  {
    var total := 0;
    for i := 0 to |chunks|
      invariant total == |Flatten(chunks[..i])|
    {
      total := total + |chunks[i]|;
      assert chunks[..i + 1][..i] == chunks[..i];
    }
    assert chunks[..|chunks|] == chunks;
    merged := new Byte[total];
    var offset := 0;
    for i := 0 to |chunks|
      invariant offset == |Flatten(chunks[..i])| <= total
      invariant merged[..offset] == Flatten(chunks[..i])
    {
      assert chunks[..i + 1][..i] == chunks[..i];
      FlattenMonotone(chunks, i + 1);
      forall k | 0 <= k < |chunks[i]| {
        merged[offset + k] := chunks[i][k];
      }
      offset := offset + |chunks[i]|;
    }
  }

  lemma {:induction false} FlattenMonotone<T>(blocks: seq<seq<T>>, n: nat)
    requires n <= |blocks|
    ensures |Flatten(blocks[..n])| <= |Flatten(blocks)|
  {
    if n < |blocks| {
      FlattenMonotone(blocks[..|blocks| - 1], n);
      assert blocks[..|blocks| - 1][..n] == blocks[..n];
    } else {
      assert blocks[..n] == blocks;
    }
  }

  class PlaybackQueue {
    var generation: nat
    var activeTurn: Option<Turn>
    var incoming: Option<Incoming>
    var lastChunkByTurn: map<Turn, int>
    var chain: seq<Job>
    var settled: nat
    var playing: bool
    var completions: seq<Completion>
    ghost var started: seq<nat>

    ghost function View(): State
      reads this
    {
      State(generation, activeTurn, incoming, lastChunkByTurn, chain, settled, playing, completions, started)
    }

    constructor ()
      ensures View() == EMPTY && View() == State(0, None, None, map[], [], 0, false, [], [])
    {
      generation, activeTurn, incoming, lastChunkByTurn := 0, None, None, map[];
      chain, settled, playing, completions, started := [], 0, false, [], [];
    }

    method Start(turn: Turn, index: int)
      modifies this
      ensures View() == Step(old(View()), Op.Start(turn, index))
    {
      var last := if turn in lastChunkByTurn then lastChunkByTurn[turn] else -1;
      if index <= last || (activeTurn.Some? && activeTurn.value != turn) {
        return;
      }
      activeTurn := Some(turn);
      incoming := Some(Incoming(turn, index, []));
    }

    method PushChunk(chunk: seq<Byte>)
      modifies this
      ensures View() == Step(old(View()), Op.PushChunk(chunk))
    {
      if incoming.Some? {
        var clip := incoming.value;
        incoming := Some(clip.(chunks := clip.chunks + [chunk]));
      }
    }

    method End(turn: Turn, index: int)
      modifies this
      ensures View() == Step(old(View()), Op.End(turn, index))
    {
      if incoming.None? || incoming.value.turn != turn || incoming.value.index != index {
        return;
      }
      var clip := incoming.value;
      incoming := None;
      lastChunkByTurn := lastChunkByTurn[turn := index];
      var merged := Merge(clip.chunks);
      if merged.Length == 0 {
        assert merged[..] == [];
        return;
      }
      chain := chain + [Job(generation, Clip(turn, index, merged[..]))];
    }

    method Complete(turn: Turn)
      modifies this
      ensures View() == Step(old(View()), Op.Complete(turn))
    {
      if activeTurn != Some(turn) {
        return;
      }
      completions := completions + [Completion(generation, turn, |chain|)];
    }

    method Cancel(which: Option<Turn>)
      modifies this
      ensures View() == Step(old(View()), Op.Cancel(which))
    {
      if which.Some? && activeTurn.Some? && which.value != activeTurn.value {
        return;
      }
      activeTurn := None;
      incoming := None;
      generation := generation + 1;
    }

    /** The next link's callback: skip a stale clip, or hand it to the adapter. */
    method RunLink()
      requires !playing && settled < |chain|
      modifies this
      ensures View() == Step(old(View()), Op.RunLink)
    {
      var job := chain[settled];
      if job.generation != generation || activeTurn != Some(job.clip.turn) {
        settled := settled + 1;
        return;
      }
      playing := true;
      started := started + [settled];
    }

    /** The adapter's promise settles, whether played, blocked or aborted. */
    method ClipEnds()
      requires playing
      modifies this
      ensures View() == Step(old(View()), Op.ClipEnds)
    {
      playing := false;
      settled := settled + 1;
    }

    method RunCompletion(i: nat)
      requires i < |completions| && completions[i].after <= settled
      modifies this
      ensures View() == Step(old(View()), Op.RunCompletion(i))
    {
      var callback := completions[i];
      completions := completions[..i] + completions[i + 1..];
      if callback.generation == generation && activeTurn == Some(callback.turn) {
        activeTurn := None;
      }
    }
  }
}
