/** End to end: the frames of one turn, delivered in order, against a browser queue
    whose chain runs whenever it likes. */
module SpeechToPlayback {
  import opened Options
  import opened Sequences
  import opened Playback
  import opened Speech

  // ---- What a frame list has said so far -------------------------------------------

  /** Finished sentence files, the chunks of the open one, and whether the turn is over. */
  datatype Tape = Tape(files: seq<seq<Byte>>, open: Option<seq<seq<Byte>>>, over: bool)

  const BLANK_TAPE := Tape([], None, false)

  ghost function Record(tape: Tape, frame: Frame): Tape {
    match frame
    case StartFrame(_, _) => tape.(open := Some([]))
    case Audio(chunk) => if tape.open.Some? then tape.(open := Some(tape.open.value + [chunk])) else tape
    case EndFrame(_, _) =>
      if tape.open.Some? then Tape(tape.files + [Flatten(tape.open.value)], None, tape.over) else tape
    case CompleteFrame(_) => tape.(over := true)
    case ErrorFrame(_) => tape.(over := true)
  }

  /** The frames a producer may send next; an error may come at any time, and ends it. */
  ghost predicate Regular(tape: Tape, frame: Frame, turn: Turn) {
    frame.ErrorFrame? ||
    (!tape.over &&
     match frame
     case StartFrame(t, i) => t == turn && i == |tape.files| && tape.open.None?
     case Audio(_) => tape.open.Some?
     case EndFrame(t, i) => t == turn && i == |tape.files| && tape.open.Some?
     case CompleteFrame(t) => t == turn && tape.open.None? && tape.files != []
     case ErrorFrame(_) => true)
  }

  ghost function Tapes(tape: Tape, frames: seq<Frame>): Tape {
    if frames == [] then tape else Record(Tapes(tape, frames[..|frames| - 1]), frames[|frames| - 1])
  }

  ghost predicate AllRegular(tape: Tape, frames: seq<Frame>, turn: Turn) {
    frames != [] ==>
      && AllRegular(tape, frames[..|frames| - 1], turn)
      && Regular(Tapes(tape, frames[..|frames| - 1]), frames[|frames| - 1], turn)
  }

  lemma {:induction false} RegularCons(tape: Tape, frame: Frame, rest: seq<Frame>, turn: Turn)
    requires Regular(tape, frame, turn) && AllRegular(Record(tape, frame), rest, turn)
    ensures AllRegular(tape, [frame] + rest, turn)
    ensures Tapes(tape, [frame] + rest) == Tapes(Record(tape, frame), rest)
  {
    var all := [frame] + rest;
    if rest == [] {
      assert all[..0] == [] && all[0] == frame;
      assert Tapes(tape, all) == Record(Tapes(tape, []), frame);
    } else {
      assert all[..|all| - 1] == [frame] + rest[..|rest| - 1];
      RegularCons(tape, frame, rest[..|rest| - 1], turn);
    }
  }

  /** The files that are read to their end, up to the first failure. */
  ghost function Files(audio: seq<Synthesis>): seq<seq<Byte>> {
    if audio == [] || !audio[0].File? then [] else [audio[0].data] + Files(audio[1..])
  }

  /** The tape after the reads of one file. */
  ghost function FileTape(tape: Tape, data: seq<Byte>): (r: Tape)
    requires tape.open.Some?
    ensures r.open.Some? && r.files == tape.files && r.over == tape.over
    decreases |data|
  {
    if data == [] then tape
    else
      var n := ReadSize(data);
      FileTape(tape.(open := Some(tape.open.value + [data[..n]])), data[n..])
  }

  /** The reads of one file concatenate to the file. */
  lemma {:induction false} FileTapeHolds(tape: Tape, data: seq<Byte>)
    requires tape.open.Some?
    ensures Flatten(FileTape(tape, data).open.value) == Flatten(tape.open.value) + data
    decreases |data|
  {
    if data == [] {
      assert Flatten(tape.open.value) + data == Flatten(tape.open.value);
    } else {
      var n := ReadSize(data);
      FileTapeHolds(tape.(open := Some(tape.open.value + [data[..n]])), data[n..]);
      FlattenSnoc(tape.open.value, data[..n]);
      assert data[..n] + data[n..] == data;
      Assoc(Flatten(tape.open.value), data[..n], data[n..]);
    }
  }

  lemma {:induction false} FileIsRegular(turn: Turn, tape: Tape, data: seq<Byte>, end: Plan)
    requires tape.open.Some? && !tape.over && AllRegular(FileTape(tape, data), Frames(end), turn)
    ensures AllRegular(tape, Frames(FilePlan(data, end)), turn)
    ensures Tapes(tape, Frames(FilePlan(data, end))) == Tapes(FileTape(tape, data), Frames(end))
    decreases |data|
  {
    if data != [] {
      var n := ReadSize(data);
      var chunk := Audio(data[..n]);
      FileIsRegular(turn, Record(tape, chunk), data[n..], end);
      RegularCons(tape, chunk, Frames(FilePlan(data[n..], end)), turn);
    }
  }

  lemma {:induction false} PlanIsRegular(turn: Turn, audio: seq<Synthesis>, tape: Tape)
    requires tape.open.None? && !tape.over && (tape.files != [] || audio != [])
    ensures AllRegular(tape, Frames(TurnPlan(turn, |tape.files|, audio)), turn)
    ensures Tapes(tape, Frames(TurnPlan(turn, |tape.files|, audio))).files == tape.files + Files(audio)
    decreases |audio|
  {
    if audio == [] {
      RegularCons(tape, CompleteFrame(turn), [], turn);
    } else if audio[0].Failed? {
      RegularCons(tape, ErrorFrame(audio[0].code), [], turn);
    } else if audio[0].Broken? {
      BrokenIsRegular(turn, tape, audio[0].data, audio[0].code);
    } else {
      PlayedIsRegular(turn, audio, tape);
    }
  }

  lemma BrokenIsRegular(turn: Turn, tape: Tape, data: seq<Byte>, code: string)
    requires tape.open.None? && !tape.over
    ensures var plan := SentencePlan(turn, |tape.files|, Broken(data, code), Done);
            AllRegular(tape, Frames(plan), turn) && Tapes(tape, Frames(plan)).files == tape.files + []
  {
    var start := StartFrame(turn, |tape.files|);
    var begun, end := Record(tape, start), Attempt(Report(code));
    RegularCons(FileTape(begun, data), ErrorFrame(code), [], turn);
    FileIsRegular(turn, begun, data, end);
    RegularCons(tape, start, Frames(FilePlan(data, end)), turn);
  }

  lemma {:induction false} PlayedIsRegular(turn: Turn, audio: seq<Synthesis>, tape: Tape)
    requires audio != [] && audio[0].File? && tape.open.None? && !tape.over
    ensures AllRegular(tape, Frames(TurnPlan(turn, |tape.files|, audio)), turn)
    ensures Tapes(tape, Frames(TurnPlan(turn, |tape.files|, audio))).files == tape.files + Files(audio)
    decreases |audio|, 0
  {
    var start, last, data := StartFrame(turn, |tape.files|), EndFrame(turn, |tape.files|), audio[0].data;
    var next := TurnPlan(turn, |tape.files| + 1, audio[1..]);
    var begun := Record(tape, start);
    var read := FileTape(begun, data);
    FileTapeHolds(begun, data);
    assert Flatten<Byte>([]) + data == data;
    PlanIsRegular(turn, audio[1..], Record(read, last));
    RegularCons(read, last, Frames(next), turn);
    FileIsRegular(turn, begun, data, Send(last, next));
    RegularCons(tape, start, Frames(FilePlan(data, Send(last, next))), turn);
    Assoc(tape.files, [data], Files(audio[1..]));
  }

  lemma FlattenSnoc<T>(blocks: seq<seq<T>>, block: seq<T>)
    ensures Flatten(blocks + [block]) == Flatten(blocks) + block
  {
    assert (blocks + [block])[..|blocks|] == blocks;
  }

  // ---- The queue under interleaving ----------------------------------------------------

  predicate ChainStep(op: Op) {
    op.RunLink? || op.ClipEnds? || op.RunCompletion?
  }

  /** How the browser dispatches a frame to the queue; an error frame does not reach it. */
  ghost predicate Dispatches(op: Op, frame: Frame) {
    match frame
    case StartFrame(t, i) => op == Op.Start(t, i)
    case Audio(chunk) => op == PushChunk(chunk)
    case EndFrame(t, i) => op == Op.End(t, i)
    case CompleteFrame(t) => op == Op.Complete(t)
    case ErrorFrame(_) => false
  }

  /** `ops` is the frames, dispatched in order, with chain steps anywhere in between. */
  ghost predicate Feeding(ops: seq<Op>, frames: seq<Frame>)
    decreases |ops| + |frames|
  {
    if frames != [] && frames[|frames| - 1].ErrorFrame? then Feeding(ops, frames[..|frames| - 1])
    else if ops == [] then frames == []
    else if ChainStep(ops[|ops| - 1]) then Feeding(ops[..|ops| - 1], frames)
    else
      && frames != [] && Dispatches(ops[|ops| - 1], frames[|frames| - 1])
      && Feeding(ops[..|ops| - 1], frames[..|frames| - 1])
  }

  /** An idle queue that has no chunk of this turn. */
  ghost predicate Idle(s: State, turn: Turn) {
    && s.activeTurn.None? && s.incoming.None? && s.completions == []
    && s.settled == |s.jobs| && !s.playing && turn !in s.lastChunk
  }

  /** One clip per finished non-empty file, numbered by its sentence. */
  ghost function Clips(generation: nat, turn: Turn, files: seq<seq<Byte>>): seq<Job> {
    if files == [] then []
    else
      var last := files[|files| - 1];
      Clips(generation, turn, files[..|files| - 1]) +
      (if last == [] then [] else [Job(generation, Clip(turn, |files| - 1, last))])
  }

  lemma {:induction false} ClipsAreOurs(generation: nat, turn: Turn, files: seq<seq<Byte>>)
    ensures forall k :: 0 <= k < |Clips(generation, turn, files)| ==>
              && Clips(generation, turn, files)[k].generation == generation
              && Clips(generation, turn, files)[k].clip.turn == turn
  {
    if files != [] {
      ClipsAreOurs(generation, turn, files[..|files| - 1]);
    }
  }

  ghost predicate SameQueue(s0: State, s: State, turn: Turn, tape: Tape) {
    && s.generation == s0.generation
    && s.jobs == s0.jobs + Clips(s0.generation, turn, tape.files)
    && s.incoming == (if tape.open.Some? then Some(Incoming(turn, |tape.files|, tape.open.value)) else None)
    && LastOf(s, turn) == |tape.files| - 1
  }

  /** The turn stays active until every clip has settled. */
  ghost predicate StillActive(s: State, turn: Turn, tape: Tape) {
    && (s.activeTurn == Some(turn) ||
        (s.activeTurn.None? && s.settled == |s.jobs| && tape.open.None? && (tape.over || tape.files == [])))
    && (s.completions != [] ==> tape.over && tape.open.None?)
    && forall i :: 0 <= i < |s.completions| ==> s.completions[i].after == |s.jobs|
  }

  /** No link is skipped: the clips started are the first ones queued, in order. */
  ghost predicate NoneSkipped(s0: State, s: State) {
    && |s0.jobs| <= s.settled <= |s.jobs| && (s.playing ==> s.settled < |s.jobs|)
    && |s.started| == |s0.started| + s.settled - |s0.jobs| + (if s.playing then 1 else 0)
    && forall k :: |s0.started| <= k < |s.started| ==> s.started[k] == |s0.jobs| + k - |s0.started|
  }

  lemma FrameKeepsQueue(s0: State, s: State, turn: Turn, tape: Tape, frame: Frame, op: Op)
    requires Regular(tape, frame, turn) && Dispatches(op, frame)
    requires SameQueue(s0, s, turn, tape) && StillActive(s, turn, tape)
    ensures SameQueue(s0, Step(s, op), turn, Record(tape, frame))
  {
    if frame.EndFrame? {
      EndKeepsQueue(s0, s, turn, tape);
    } else {
      OpenFrameKeepsQueue(s0, s, turn, tape, frame, op);
    }
  }

  /** Every frame but an end frame leaves the queued clips alone. */
  lemma OpenFrameKeepsQueue(s0: State, s: State, turn: Turn, tape: Tape, frame: Frame, op: Op)
    requires Regular(tape, frame, turn) && Dispatches(op, frame) && !frame.EndFrame?
    requires SameQueue(s0, s, turn, tape) && StillActive(s, turn, tape)
    ensures SameQueue(s0, Step(s, op), turn, Record(tape, frame))
  {
  }

  lemma EndKeepsQueue(s0: State, s: State, turn: Turn, tape: Tape)
    requires tape.open.Some? && SameQueue(s0, s, turn, tape)
    ensures SameQueue(s0, Step(s, Op.End(turn, |tape.files|)), turn, Record(tape, EndFrame(turn, |tape.files|)))
  {
    EndQueuesFile(s0, s, turn, tape);
  }

  /** An end frame appends the sentence's clip, or nothing when the file was empty. */
  lemma EndQueuesFile(s0: State, s: State, turn: Turn, tape: Tape)
    requires tape.open.Some? && s.generation == s0.generation
    requires s.jobs == s0.jobs + Clips(s0.generation, turn, tape.files)
    requires s.incoming == Some(Incoming(turn, |tape.files|, tape.open.value))
    ensures Step(s, Op.End(turn, |tape.files|)).jobs
         == s0.jobs + Clips(s0.generation, turn, tape.files + [Flatten(tape.open.value)])
  {
    var data := Flatten(tape.open.value);
    var files, now := tape.files + [data], Clips(s0.generation, turn, tape.files);
    var clip := if data == [] then [] else [Job(s0.generation, Clip(turn, |tape.files|, data))];
    calc {
      Step(s, Op.End(turn, |tape.files|)).jobs;
      s.jobs + clip;
      { Assoc(s0.jobs, now, clip); }
      s0.jobs + (now + clip);
      { assert files[..|files| - 1] == tape.files; }
      s0.jobs + Clips(s0.generation, turn, files);
    }
  }

  lemma FrameKeepsActive(s0: State, s: State, turn: Turn, tape: Tape, frame: Frame, op: Op)
    requires Regular(tape, frame, turn) && Dispatches(op, frame)
    requires SameQueue(s0, s, turn, tape) && StillActive(s, turn, tape)
    ensures StillActive(Step(s, op), turn, Record(tape, frame))
  {
    assert s.completions == [];
  }

  lemma FrameStartsNothing(s0: State, s: State, frame: Frame, op: Op)
    requires Dispatches(op, frame) && NoneSkipped(s0, s)
    ensures NoneSkipped(s0, Step(s, op))
  {
  }

  lemma ChainTracked(s0: State, s: State, turn: Turn, tape: Tape, op: Op)
    requires ChainStep(op)
    requires SameQueue(s0, s, turn, tape) && StillActive(s, turn, tape) && NoneSkipped(s0, s)
    ensures SameQueue(s0, Step(s, op), turn, tape)
    ensures StillActive(Step(s, op), turn, tape) && NoneSkipped(s0, Step(s, op))
  {
    if op.RunLink? && !s.playing && s.settled < |s.jobs| {
      ClipsAreOurs(s0.generation, turn, tape.files);
      assert s.jobs[s.settled] == Clips(s0.generation, turn, tape.files)[s.settled - |s0.jobs|];
    }
  }

  lemma {:induction false} FeedingTracked(s0: State, turn: Turn, ops: seq<Op>, frames: seq<Frame>)
    requires Idle(s0, turn) && Feeding(ops, frames) && AllRegular(BLANK_TAPE, frames, turn)
    ensures SameQueue(s0, Run(s0, ops), turn, Tapes(BLANK_TAPE, frames))
    ensures StillActive(Run(s0, ops), turn, Tapes(BLANK_TAPE, frames))
    ensures NoneSkipped(s0, Run(s0, ops))
    decreases |ops| + |frames|
  {
    if frames != [] && frames[|frames| - 1].ErrorFrame? {
      FeedingTracked(s0, turn, ops, frames[..|frames| - 1]);
    } else if ops == [] {
      assert s0.jobs + [] == s0.jobs;
    } else {
      var init, op := ops[..|ops| - 1], ops[|ops| - 1];
      if ChainStep(op) {
        FeedingTracked(s0, turn, init, frames);
        ChainTracked(s0, Run(s0, init), turn, Tapes(BLANK_TAPE, frames), op);
      } else {
        var before, frame := frames[..|frames| - 1], frames[|frames| - 1];
        FeedingTracked(s0, turn, init, before);
        FrameKeepsQueue(s0, Run(s0, init), turn, Tapes(BLANK_TAPE, before), frame, op);
        FrameKeepsActive(s0, Run(s0, init), turn, Tapes(BLANK_TAPE, before), frame, op);
        FrameStartsNothing(s0, Run(s0, init), frame, op);
      }
    }
  }

  // ---- The guarantee -------------------------------------------------------------------

  lemma {:induction false} RegularPrefix(tape: Tape, frames: seq<Frame>, n: nat, turn: Turn)
    requires AllRegular(tape, frames, turn) && n <= |frames|
    ensures AllRegular(tape, frames[..n], turn)
    ensures Tapes(tape, frames[..n]).files <= Tapes(tape, frames).files
  {
    if n < |frames| {
      RegularPrefix(tape, frames[..|frames| - 1], n, turn);
      assert frames[..|frames| - 1][..n] == frames[..n];
    } else {
      assert frames[..n] == frames;
    }
  }

  lemma CutShortIsRegular(tape: Tape, sent: seq<Frame>, frames: seq<Frame>, turn: Turn)
    requires CutShort(sent, frames) && AllRegular(tape, frames, turn)
    ensures AllRegular(tape, sent, turn) && Tapes(tape, sent).files <= Tapes(tape, frames).files
  {
    if sent <= frames {
      RegularPrefix(tape, frames, |sent|, turn);
      assert frames[..|sent|] == sent;
    } else {
      var k := |sent| - 1;
      RegularPrefix(tape, frames, k, turn);
      assert frames[..k] == sent[..k];
    }
  }

  lemma ReceivedIsCutShort(sent: seq<Frame>, frames: seq<Frame>, received: nat)
    requires CutShort(sent, frames) && received <= |sent|
    ensures CutShort(sent[..received], frames)
  {
    if !(sent <= frames) && received < |sent| {
      assert sent[..received] == sent[..|sent| - 1][..received];
    } else if received == |sent| {
      assert sent[..received] == sent;
    }
  }

  /** The frames that leave the socket are regular, and finish a prefix of the turn's files. */
  lemma DeliveredIsRegular(turn: Turn, audio: seq<Synthesis>, resumed: nat -> Resumed, received: nat)
    requires audio != [] && received <= |Delivered(TurnPlan(turn, 0, audio), resumed, 0)|
    ensures var frames := Delivered(TurnPlan(turn, 0, audio), resumed, 0)[..received];
            AllRegular(BLANK_TAPE, frames, turn) && Tapes(BLANK_TAPE, frames).files <= Files(audio)
  {
    var plan := TurnPlan(turn, 0, audio);
    PlanIsRegular(turn, audio, BLANK_TAPE);
    assert [] + Files(audio) == Files(audio);
    DeliveredIsPrefix(plan, resumed, 0);
    ReceivedIsCutShort(Delivered(plan, resumed, 0), Frames(plan), received);
    CutShortIsRegular(BLANK_TAPE, Delivered(plan, resumed, 0)[..received], Frames(plan), turn);
  }

  /** Whatever is cancelled, fails or raises on the server and however the browser's chain is
      scheduled, the queue holds exactly one clip per finished non-empty sentence, with
      the bytes of that sentence's file; the clips started are the first of those, none
      skipped; and once the chain is idle all of them have been started. */
  lemma SpeechArrivesIntact(s0: State, turn: Turn, audio: seq<Synthesis>, resumed: nat -> Resumed,
                            received: nat, ops: seq<Op>)
    requires Idle(s0, turn) && audio != []
    requires received <= |Delivered(TurnPlan(turn, 0, audio), resumed, 0)|
    requires Feeding(ops, Delivered(TurnPlan(turn, 0, audio), resumed, 0)[..received])
    ensures var frames := Delivered(TurnPlan(turn, 0, audio), resumed, 0)[..received];
            var finished := Tapes(BLANK_TAPE, frames).files;
            var s := Run(s0, ops);
            && finished <= Files(audio)
            && s.jobs == s0.jobs + Clips(s0.generation, turn, finished)
            && NoneSkipped(s0, s)
            && (s.settled == |s.jobs| ==> |s.started| == |s0.started| + |Clips(s0.generation, turn, finished)|)
    ensures NoneDisturbed(resumed) && received == |Delivered(TurnPlan(turn, 0, audio), resumed, 0)| ==>
              Run(s0, ops).jobs == s0.jobs + Clips(s0.generation, turn, Files(audio))
  {
    var plan := TurnPlan(turn, 0, audio);
    var sent := Delivered(plan, resumed, 0);
    DeliveredIsRegular(turn, audio, resumed, received);
    FeedingTracked(s0, turn, ops, sent[..received]);
    DeliveredIsPrefix(plan, resumed, 0);
    if NoneDisturbed(resumed) && received == |sent| {
      assert sent[..received] == Frames(plan);
      PlanIsRegular(turn, audio, BLANK_TAPE);
      assert [] + Files(audio) == Files(audio);
    }
  }

  // ---- The next turn -----------------------------------------------------------------------

  ghost predicate Begun(frames: seq<Frame>) {
    exists i :: 0 <= i < |frames| && frames[i].StartFrame?
  }

  ghost predicate Completed(frames: seq<Frame>) {
    exists i :: 0 <= i < |frames| && frames[i].CompleteFrame?
  }

  lemma BegunNext(frames: seq<Frame>)
    requires frames != []
    ensures Begun(frames) <==> Begun(frames[..|frames| - 1]) || frames[|frames| - 1].StartFrame?
    ensures Completed(frames) <==> Completed(frames[..|frames| - 1]) || frames[|frames| - 1].CompleteFrame?
  {
    var init, n := frames[..|frames| - 1], |frames| - 1;
    assert forall i :: 0 <= i < n ==> init[i] == frames[i];
  }

  /** What the tape says about a turn that has not begun, or is complete. */
  lemma {:induction false} TapeOfTurn(frames: seq<Frame>, turn: Turn)
    requires AllRegular(BLANK_TAPE, frames, turn)
    ensures !Begun(frames) ==> Tapes(BLANK_TAPE, frames).open.None? && Tapes(BLANK_TAPE, frames).files == []
    ensures Completed(frames) ==> Tapes(BLANK_TAPE, frames).open.None? && Tapes(BLANK_TAPE, frames).over
  {
    if frames != [] {
      TapeOfTurn(frames[..|frames| - 1], turn);
      BegunNext(frames);
    }
  }

  /** Which turn is active, and whether a completion will end it. */
  ghost predicate Holds(s: State, turn: Turn, begun: bool, completed: bool) {
    && (!begun ==> s.activeTurn.None? && s.completions == [])
    && (begun && !completed ==> s.activeTurn == Some(turn) && s.completions == [])
    && (s.activeTurn.Some? ==> s.activeTurn == Some(turn) && (completed ==> s.completions != []))
    && forall i :: 0 <= i < |s.completions| ==>
         s.completions[i].generation == s.generation && s.completions[i].turn == turn
  }

  lemma ChainHolds(s: State, turn: Turn, begun: bool, completed: bool, op: Op)
    requires Holds(s, turn, begun, completed) && ChainStep(op)
    ensures Holds(Step(s, op), turn, begun, completed)
  {
  }

  lemma FrameHolds(s: State, turn: Turn, begun: bool, completed: bool, frame: Frame, op: Op)
    requires Holds(s, turn, begun, completed) && Dispatches(op, frame)
    requires frame.StartFrame? ==> frame.turn == turn && !completed && LastOf(s, turn) < frame.index
    requires frame.CompleteFrame? ==> frame.turn == turn
    ensures Holds(Step(s, op), turn, begun || frame.StartFrame?, completed || frame.CompleteFrame?)
  {
  }

  /** Only this turn is remembered in addition. */
  ghost predicate RemembersOnly(s0: State, s: State, turn: Turn) {
    s.lastChunk.Keys <= s0.lastChunk.Keys + {turn}
  }

  lemma StepRemembers(s0: State, s: State, turn: Turn, op: Op)
    requires RemembersOnly(s0, s, turn) && (op.End? ==> op.turn == turn)
    ensures RemembersOnly(s0, Step(s, op), turn)
  {
  }

  lemma {:induction false} FeedingHolds(s0: State, turn: Turn, ops: seq<Op>, frames: seq<Frame>)
    requires Idle(s0, turn) && Feeding(ops, frames) && AllRegular(BLANK_TAPE, frames, turn)
    ensures Holds(Run(s0, ops), turn, Begun(frames), Completed(frames))
    ensures RemembersOnly(s0, Run(s0, ops), turn)
    decreases |ops| + |frames|
  {
    if frames != [] && frames[|frames| - 1].ErrorFrame? {
      BegunNext(frames);
      FeedingHolds(s0, turn, ops, frames[..|frames| - 1]);
    } else if ops != [] {
      var init, op := ops[..|ops| - 1], ops[|ops| - 1];
      if ChainStep(op) {
        FeedingHolds(s0, turn, init, frames);
        ChainHolds(Run(s0, init), turn, Begun(frames), Completed(frames), op);
        StepRemembers(s0, Run(s0, init), turn, op);
      } else {
        var before, frame := frames[..|frames| - 1], frames[|frames| - 1];
        BegunNext(frames);
        FeedingHolds(s0, turn, init, before);
        FeedingTracked(s0, turn, init, before);
        TapeOfTurn(before, turn);
        FrameHolds(Run(s0, init), turn, Begun(before), Completed(before), frame, op);
        StepRemembers(s0, Run(s0, init), turn, op);
      }
    }
  }

  /** The chain has run out, and so have the callbacks on it. */
  predicate Quiet(s: State) {
    s.settled == |s.jobs| && !s.playing && s.completions == []
  }

  /** Once everything has run, the queue is idle for another turn if and only if this turn
      never began or was completed. */
  lemma IdleAgainIff(s0: State, turn: Turn, ops: seq<Op>, frames: seq<Frame>, next: Turn)
    requires Idle(s0, turn) && Feeding(ops, frames) && AllRegular(BLANK_TAPE, frames, turn)
    requires Quiet(Run(s0, ops)) && next != turn && next !in s0.lastChunk
    ensures Idle(Run(s0, ops), next) <==> !Begun(frames) || Completed(frames)
  {
    FeedingHolds(s0, turn, ops, frames);
    FeedingTracked(s0, turn, ops, frames);
    TapeOfTurn(frames, turn);
  }

  /** The queue is held by a turn that will not end. */
  ghost predicate Stuck(s0: State, s: State, turn: Turn) {
    && s.activeTurn == Some(turn) && s.completions == [] && s.jobs == s0.jobs
    && (s.incoming.Some? ==> s.incoming.value.turn == turn)
  }

  /** Every clip of another turn is then dropped. */
  lemma {:induction false} StuckDropsNext(s: State, turn: Turn, next: Turn, ops: seq<Op>, frames: seq<Frame>)
    requires Stuck(s, s, turn) && next != turn
    requires Feeding(ops, frames) && AllRegular(BLANK_TAPE, frames, next)
    ensures Stuck(s, Run(s, ops), turn)
    decreases |ops| + |frames|
  {
    if frames != [] && frames[|frames| - 1].ErrorFrame? {
      StuckDropsNext(s, turn, next, ops, frames[..|frames| - 1]);
    } else if ops != [] {
      if ChainStep(ops[|ops| - 1]) {
        StuckDropsNext(s, turn, next, ops[..|ops| - 1], frames);
      } else {
        StuckDropsNext(s, turn, next, ops[..|ops| - 1], frames[..|frames| - 1]);
      }
    }
  }

  /** Turns compose if and only if the first one never began or was completed. Its frames have
      been fed and everything has run; then the next turn is sent undisturbed and holds at
      least one non-empty file. All its clips are queued exactly under that condition. A turn
      that ends in an error after it began keeps the queue, and the next is dropped whole. */
  lemma NextTurnPlaysIff(s0: State, turn: Turn, ops: seq<Op>, frames: seq<Frame>,
                         next: Turn, audio: seq<Synthesis>, nextOps: seq<Op>)
    requires Idle(s0, turn) && Feeding(ops, frames) && AllRegular(BLANK_TAPE, frames, turn)
    requires Quiet(Run(s0, ops)) && next != turn && next !in s0.lastChunk
    requires audio != [] && Feeding(nextOps, Frames(TurnPlan(next, 0, audio)))
    requires Clips(s0.generation, next, Files(audio)) != []
    ensures Run(Run(s0, ops), nextOps).jobs == Run(s0, ops).jobs + Clips(s0.generation, next, Files(audio))
       <==> !Begun(frames) || Completed(frames)
  {
    var s := Run(s0, ops);
    IdleAgainIff(s0, turn, ops, frames, next);
    FeedingTracked(s0, turn, ops, frames);
    PlanIsRegular(next, audio, BLANK_TAPE);
    if Idle(s, next) {
      FeedingTracked(s, next, nextOps, Frames(TurnPlan(next, 0, audio)));
      assert [] + Files(audio) == Files(audio);
    } else {
      FeedingHolds(s0, turn, ops, frames);
      StuckDropsNext(s, turn, next, nextOps, Frames(TurnPlan(next, 0, audio)));
    }
  }

  /** Such a turn: its file cannot be opened after its start frame has been sent. */
  lemma BrokenTurnHolds(turn: Turn, code: string)
    ensures Frames(TurnPlan(turn, 0, [Broken([], code)])) == [StartFrame(turn, 0), ErrorFrame(code)]
    ensures Begun([StartFrame(turn, 0), ErrorFrame(code)]) && !Completed([StartFrame(turn, 0), ErrorFrame(code)])
  {
    var end: Plan := Attempt(Report(code));
    assert Frames(FilePlan([], end)) == [ErrorFrame(code)];
    assert [StartFrame(turn, 0), ErrorFrame(code)][0].StartFrame?;
  }
}
