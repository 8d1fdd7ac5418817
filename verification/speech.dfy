/** Speech synthesis for one socket: the frame producer
    (backend/voice_console/tts_session.py) and the cancelled-turn set it polls
    (backend/voice_console/voice_session.py). */
module Speech {
  import opened Sequences
  import opened Playback

  const READ_SIZE: nat := 32 * 1024
  const MAX_CANCELLED_TURNS: nat := 256

  // ---- The cancelled-turn set --------------------------------------------------------

  function Without(turns: seq<Turn>, t: Turn): seq<Turn> {
    if turns == [] then []
    else Without(turns[..|turns| - 1], t) + (if turns[|turns| - 1] == t then [] else [turns[|turns| - 1]])
  }

  lemma {:induction false} WithoutSpec(turns: seq<Turn>, t: Turn)
    ensures t !in Without(turns, t) && |Without(turns, t)| <= |turns|
    ensures forall u :: u != t ==> (u in Without(turns, t) <==> u in turns)
    ensures t in turns ==> |Without(turns, t)| < |turns|
  {
    if turns != [] {
      WithoutSpec(turns[..|turns| - 1], t);
      assert turns == turns[..|turns| - 1] + [turns[|turns| - 1]];
    }
  }

  /** Insert or refresh t as the newest entry, then drop the oldest beyond the bound. */
  function Cancelled(turns: seq<Turn>, t: Turn): seq<Turn> {
    LastN(Without(turns, t) + [t], MAX_CANCELLED_TURNS)
  }

  function CancelledAll(turns: seq<Turn>, ts: seq<Turn>): seq<Turn> {
    if ts == [] then turns else Cancelled(CancelledAll(turns, ts[..|ts| - 1]), ts[|ts| - 1])
  }

  ghost predicate NoRepeats(turns: seq<Turn>) {
    forall i, j :: 0 <= i < j < |turns| ==> turns[i] != turns[j]
  }

  lemma {:induction false} WithoutKeepsOrder(turns: seq<Turn>, t: Turn)
    requires NoRepeats(turns)
    ensures NoRepeats(Without(turns, t))
    ensures |Without(turns, t)| == |turns| - (if t in turns then 1 else 0)
  {
    if turns != [] {
      var init, last := turns[..|turns| - 1], turns[|turns| - 1];
      WithoutKeepsOrder(init, t);
      WithoutSpec(init, t);
      assert turns == init + [last];
      assert last !in init && last !in Without(init, t);
      if t == last {
        assert Without(turns, t) == Without(init, t);
      }
    }
  }

  lemma {:induction false} WithoutConcat(a: seq<Turn>, b: seq<Turn>, t: Turn)
    ensures Without(a + b, t) == Without(a, t) + Without(b, t)
  {
    if b == [] {
      assert a + b == a;
    } else {
      WithoutConcat(a, b[..|b| - 1], t);
      assert (a + b)[..|a + b| - 1] == a + b[..|b| - 1];
    }
  }

  /** The turns of a list once each, by their last occurrence. */
  ghost function Once(turns: seq<Turn>): seq<Turn> {
    if turns == [] then []
    else Without(Once(turns[..|turns| - 1]), turns[|turns| - 1]) + [turns[|turns| - 1]]
  }

  ghost function Distinct(turns: seq<Turn>): set<Turn> {
    set t | t in turns
  }

  lemma SameTurns(a: seq<Turn>, b: seq<Turn>)
    requires forall t :: t in a <==> t in b
    ensures Distinct(a) == Distinct(b)
  {
  }

  lemma {:induction false} OnceHasSame(turns: seq<Turn>)
    ensures forall t :: t in Once(turns) <==> t in turns
    ensures NoRepeats(Once(turns))
  {
    if turns != [] {
      var init, last := turns[..|turns| - 1], turns[|turns| - 1];
      OnceHasSame(init);
      WithoutKeepsOrder(Once(init), last);
      WithoutSpec(Once(init), last);
      assert turns == init + [last];
    }
  }

  lemma {:induction false} NoRepeatsCounts(turns: seq<Turn>)
    requires NoRepeats(turns)
    ensures |Distinct(turns)| == |turns|
  {
    if turns != [] {
      var init, last := turns[..|turns| - 1], turns[|turns| - 1];
      NoRepeatsCounts(init);
      assert turns == init + [last] && last !in init;
      assert Distinct(turns) == Distinct(init) + {last};
    }
  }

  lemma OnceCounts(turns: seq<Turn>)
    ensures |Once(turns)| == |Distinct(turns)|
  {
    OnceHasSame(turns);
    SameTurns(Once(turns), turns);
    NoRepeatsCounts(Once(turns));
  }

  /** The newest entries of the list are t and then those of `newer`. */
  ghost predicate EndsWithRun(turns: seq<Turn>, t: Turn, newer: seq<Turn>) {
    exists older :: turns == older + ([t] + newer)
  }

  /** t is followed by the turns cancelled since, or has been dropped for them. */
  ghost predicate Tracked(turns: seq<Turn>, t: Turn, newer: seq<Turn>) {
    if |newer| < MAX_CANCELLED_TURNS then EndsWithRun(turns, t, newer) else t !in turns
  }

  lemma RefreshOther(older: seq<Turn>, t: Turn, newer: seq<Turn>, other: Turn)
    requires other != t
    ensures Without(older + ([t] + newer), other) + [other]
         == Without(older, other) + ([t] + (Without(newer, other) + [other]))
  {
    WithoutConcat(older, [t] + newer, other);
    WithoutConcat([t], newer, other);
    assert [t][..0] == [] && Without([t], other) == [] + [t];
  }

  lemma TrackedNext(turns: seq<Turn>, t: Turn, newer: seq<Turn>, other: Turn)
    requires Tracked(turns, t, newer) && other != t && NoRepeats(newer) && t !in newer
    ensures Tracked(Cancelled(turns, other), t, Without(newer, other) + [other])
  {
    WithoutKeepsOrder(newer, other);
    var next := Without(newer, other) + [other];
    if |newer| < MAX_CANCELLED_TURNS {
      var older :| turns == older + ([t] + newer);
      RefreshOther(older, t, newer, other);
      DropOldest(Without(older, other), t, newer, other);
    } else {
      WithoutSpec(turns, other);
    }
  }

  /** Beyond the bound the oldest entries go, and t with them once 256 others follow it. */
  lemma DropOldest(older: seq<Turn>, t: Turn, newer: seq<Turn>, other: Turn)
    requires |Without(newer, other)| < MAX_CANCELLED_TURNS && other != t && t !in newer
    ensures var next := Without(newer, other) + [other];
            Tracked(LastN(older + ([t] + next), MAX_CANCELLED_TURNS), t, next)
  {
    var next := Without(newer, other) + [other];
    if |next| < MAX_CANCELLED_TURNS {
      LastNOfConcat(older, [t] + next, MAX_CANCELLED_TURNS);
    } else {
      WithoutSpec(newer, other);
      LastNOfConcat(older + [t], next, MAX_CANCELLED_TURNS);
      Assoc(older, [t], next);
    }
  }

  lemma {:induction false} CancelsTracked(turns: seq<Turn>, t: Turn, others: seq<Turn>)
    requires t !in others
    ensures Tracked(CancelledAll(Cancelled(turns, t), others), t, Once(others))
  {
    if others == [] {
      var now := Cancelled(turns, t);
      assert now == now[..|now| - 1] + ([t] + []);
    } else {
      var init, last := others[..|others| - 1], others[|others| - 1];
      CancelsTracked(turns, t, init);
      OnceHasSame(init);
      TrackedNext(CancelledAll(Cancelled(turns, t), init), t, Once(init), last);
    }
  }

  /** After later cancels of other turns, however often each is repeated, a cancelled turn is
      still seen as cancelled if and only if fewer than 256 different turns are among them. */
  lemma CancelSticksIff(turns: seq<Turn>, t: Turn, others: seq<Turn>)
    requires t !in others
    ensures t in CancelledAll(Cancelled(turns, t), others) <==> |Distinct(others)| < 256
  {
    CancelsTracked(turns, t, others);
    OnceCounts(others);
    if |Once(others)| < MAX_CANCELLED_TURNS {
      var older :| CancelledAll(Cancelled(turns, t), others) == older + ([t] + Once(others));
    }
  }

  /** n different turns. */
  ghost function Turns(n: nat): seq<Turn> {
    seq(n, i requires 0 <= i < n => seq(i + 2, _ => 't'))
  }

  /** A cancel that is forgotten: 256 different turns are cancelled after it. */
  lemma CancelForgotten(turns: seq<Turn>)
    ensures "t" !in CancelledAll(Cancelled(turns, "t"), Turns(256))
  {
    var others := Turns(256);
    forall i | 0 <= i < |others|
      ensures others[i] != "t"
    {
      assert |others[i]| == i + 2;
    }
    TurnsDiffer(256);
    CancelSticksIff(turns, "t", others);
  }

  lemma {:induction false} TurnsDiffer(n: nat)
    ensures |Distinct(Turns(n))| == n
  {
    if n > 0 {
      var init, last := Turns(n - 1), Turns(n)[n - 1];
      TurnsDiffer(n - 1);
      assert Turns(n) == init + [last];
      assert Distinct(Turns(n)) == Distinct(init) + {last};
      assert forall i :: 0 <= i < n - 1 ==> |init[i]| == i + 2;
      assert |last| == n + 1;
      assert last !in Distinct(init);
    }
  }

  class RecordingSession {
    var cancelled: seq<Turn>  // an ordered map's keys, oldest first

    constructor ()
      ensures cancelled == []
    {
      cancelled := [];
    }

    method Cancel(turn: string)
      modifies this
      ensures cancelled == if turn == "" then old(cancelled) else Cancelled(old(cancelled), turn)
    {
      if turn == "" {
        return;
      }
      ghost var all := Without(cancelled, turn) + [turn];
      cancelled := Without(cancelled, turn) + [turn];
      while |cancelled| > MAX_CANCELLED_TURNS
        invariant |cancelled| <= |all| && cancelled == all[|all| - |cancelled|..]
        invariant |all| >= MAX_CANCELLED_TURNS ==> |cancelled| >= MAX_CANCELLED_TURNS
        invariant |all| < MAX_CANCELLED_TURNS ==> cancelled == all
        decreases |cancelled|
      {
        cancelled := cancelled[1..];
      }
    }

    method IsCancelled(turn: Turn) returns (c: bool)
      ensures c <==> turn in cancelled
    {
      c := turn in cancelled;
    }

    method ForgetCancel(turn: Turn)
      modifies this
      ensures turn !in cancelled
      ensures forall other :: other != turn ==> (other in cancelled <==> other in old(cancelled))
    {
      WithoutSpec(cancelled, turn);
      cancelled := Without(cancelled, turn);
    }
  }

  // ---- The producer ----------------------------------------------------------------------

  datatype Frame =
    | StartFrame(turn: Turn, index: nat)
    | Audio(chunk: seq<Byte>)
    | EndFrame(turn: Turn, index: nat)
    | CompleteFrame(turn: Turn)
    | ErrorFrame(code: string)

  /** What synthesis of one sentence and reading its file yield: the file, an error before
      anything is sent, or an error of opening or reading it after `data` has been read. */
  datatype Synthesis =
    | File(data: seq<Byte>)
    | Failed(code: string)
    | Broken(data: seq<Byte>, code: string)

  /** What the coroutine finds when it resumes from an await: nothing happened, its turn is in
      the cancelled set, its task was cancelled, or the await raised. In the last two cases
      the frame being sent may still have gone out. */
  datatype Resumed =
    | Undisturbed
    | TurnCancelled
    | Killed(delivered: bool)
    | Raised(delivered: bool, code: string)

  /** The awaits of an undisturbed run, in order. Attempt is a file operation that raises,
      unless the turn is seen as cancelled just before it; a report goes out even so. */
  datatype Plan =
    | Done
    | Synthesize(rest: Plan)
    | Send(frame: Frame, rest: Plan)
    | Attempt(rest: Plan)
    | Report(code: string)

  /** How much one read returns. */
  function ReadSize(data: seq<Byte>): (n: nat)
    ensures n <= |data| && (data != [] ==> n > 0)
  {
    if |data| < READ_SIZE then |data| else READ_SIZE
  }

  ghost function FilePlan(data: seq<Byte>, end: Plan): Plan
    decreases |data|
  {
    if data == [] then end
    else
      var n := ReadSize(data);
      Send(Audio(data[..n]), FilePlan(data[n..], end))
  }

  /** What the end of the file leads to: the end frame, or a read that raises. */
  function FileEnd(turn: Turn, index: nat, file: Synthesis, next: Plan): Plan
    requires !file.Failed?
  {
    if file.File? then Send(EndFrame(turn, index), next) else Attempt(Report(file.code))
  }

  ghost function SentencePlan(turn: Turn, index: nat, synthesis: Synthesis, next: Plan): Plan {
    match synthesis
    case Failed(code) => Report(code)
    case _ => Send(StartFrame(turn, index), FilePlan(synthesis.data, FileEnd(turn, index, synthesis, next)))
  }

  ghost function TurnPlan(turn: Turn, index: nat, audio: seq<Synthesis>): Plan
    decreases |audio|
  {
    if audio == [] then Send(CompleteFrame(turn), Done)
    else Synthesize(SentencePlan(turn, index, audio[0], TurnPlan(turn, index + 1, audio[1..])))
  }

  ghost function Frames(plan: Plan): seq<Frame> {
    match plan
    case Done => []
    case Synthesize(rest) => Frames(rest)
    case Send(frame, rest) => [frame] + Frames(rest)
    case Attempt(rest) => Frames(rest)
    case Report(code) => [ErrorFrame(code)]
  }

  /** The frame, if it went out before its send was interrupted. */
  function Arrived(frame: Frame, resumed: Resumed): seq<Frame> {
    if (resumed.Killed? || resumed.Raised?) && !resumed.delivered then [] else [frame]
  }

  /** The frames that leave the socket: the plan, cut at the first disturbance, and an error
      frame when that was an exception. `resumed(n)` is what the coroutine finds after n
      awaits. */
  ghost function Delivered(plan: Plan, resumed: nat -> Resumed, n: nat): seq<Frame>
    decreases plan, 0
  {
    match plan
    case Done => []
    case Synthesize(rest) =>
      if !resumed(n).Undisturbed? then [] else Onward(rest, resumed, n + 1)
    case Send(frame, rest) =>
      if !resumed(n).Undisturbed? then []
      else Arrived(frame, resumed(n + 1)) + Onward(rest, resumed, n + 1)
    case Attempt(rest) =>
      if !resumed(n).Undisturbed? then [] else Delivered(rest, resumed, n)
    case Report(code) =>
      if resumed(n).Killed? then [] else Arrived(ErrorFrame(code), resumed(n + 1))
  }

  /** After an await: an exception is reported, a cancelled task ends, else the plan goes on. */
  ghost function Onward(rest: Plan, resumed: nat -> Resumed, n: nat): seq<Frame>
    decreases rest, 1
  {
    match resumed(n)
    case Raised(_, code) => Arrived(ErrorFrame(code), resumed(n + 1))
    case Killed(_) => []
    case _ => Delivered(rest, resumed, n)
  }

  /** A prefix of the frames, or one followed by an error frame. */
  ghost predicate CutShort(sent: seq<Frame>, frames: seq<Frame>) {
    sent <= frames
    || (sent != [] && sent[|sent| - 1].ErrorFrame? && sent[..|sent| - 1] <= frames)
  }

  lemma CutShortNext(frame: Frame, sent: seq<Frame>, frames: seq<Frame>)
    requires CutShort(sent, frames)
    ensures CutShort([frame] + sent, [frame] + frames)
    ensures sent <= frames ==> [frame] + sent <= [frame] + frames
  {
    if !(sent <= frames) {
      assert ([frame] + sent)[..|sent|] == [frame] + sent[..|sent| - 1];
    }
  }

  lemma OneErrorIsCutShort(code: string, frames: seq<Frame>)
    ensures CutShort([ErrorFrame(code)], frames) && CutShort([], frames)
  {
    assert [ErrorFrame(code)][..0] == [];
  }

  lemma SendIsCutShort(frame: Frame, rest: Plan, resumed: nat -> Resumed, n: nat)
    requires CutShort(Onward(rest, resumed, n), Frames(rest))
    ensures CutShort(Arrived(frame, resumed(n)) + Onward(rest, resumed, n), [frame] + Frames(rest))
    ensures !resumed(n).Raised? && Onward(rest, resumed, n) <= Frames(rest) ==>
              Arrived(frame, resumed(n)) + Onward(rest, resumed, n) <= [frame] + Frames(rest)
  {
    if Arrived(frame, resumed(n)) == [frame] {
      CutShortNext(frame, Onward(rest, resumed, n), Frames(rest));
    } else {
      assert [] + Onward(rest, resumed, n) == Onward(rest, resumed, n);
      InterruptedIsCutShort(rest, resumed, n, [frame] + Frames(rest));
    }
  }

  /** When a send is interrupted before it went out, at most an error follows. */
  lemma InterruptedIsCutShort(rest: Plan, resumed: nat -> Resumed, n: nat, frames: seq<Frame>)
    requires (resumed(n).Killed? || resumed(n).Raised?)
    ensures CutShort(Onward(rest, resumed, n), frames)
    ensures resumed(n).Killed? ==> Onward(rest, resumed, n) == []
  {
    if resumed(n).Raised? {
      OneErrorIsCutShort(resumed(n).code, frames);
    }
  }

  /** Nothing has been raised. */
  ghost predicate NoneRaised(resumed: nat -> Resumed) {
    forall m: nat :: !resumed(m).Raised?
  }

  ghost predicate NoneDisturbed(resumed: nat -> Resumed) {
    forall m: nat :: resumed(m).Undisturbed?
  }

  /** A cancel at any await leaves a prefix of the full frame list; an exception a prefix and
      at most one error frame. */
  lemma {:induction false} DeliveredIsPrefix(plan: Plan, resumed: nat -> Resumed, n: nat)
    ensures CutShort(Delivered(plan, resumed, n), Frames(plan))
    ensures NoneRaised(resumed) ==> Delivered(plan, resumed, n) <= Frames(plan)
    ensures NoneDisturbed(resumed) ==> Delivered(plan, resumed, n) == Frames(plan)
    decreases plan, 0
  {
    match plan
    case Done =>
    case Synthesize(rest) => OnwardIsPrefix(rest, resumed, n + 1);
    case Send(frame, rest) =>
      OnwardIsPrefix(rest, resumed, n + 1);
      SendIsCutShort(frame, rest, resumed, n + 1);
    case Attempt(rest) => DeliveredIsPrefix(rest, resumed, n);
    case Report(code) =>
  }

  lemma {:induction false} OnwardIsPrefix(rest: Plan, resumed: nat -> Resumed, n: nat)
    ensures CutShort(Onward(rest, resumed, n), Frames(rest))
    ensures NoneRaised(resumed) ==> Onward(rest, resumed, n) <= Frames(rest)
    ensures NoneDisturbed(resumed) ==> Onward(rest, resumed, n) == Frames(rest)
    decreases rest, 1
  {
    if resumed(n).Raised? {
      OneErrorIsCutShort(resumed(n).code, Frames(rest));
    } else if !resumed(n).Killed? {
      DeliveredIsPrefix(rest, resumed, n);
    }
  }

  /** The frames of the first k awaits of a plan. */
  ghost function Awaited(plan: Plan, k: nat): seq<Frame> {
    if k == 0 then []
    else match plan
      case Done => []
      case Synthesize(rest) => Awaited(rest, k - 1)
      case Send(frame, rest) => [frame] + Awaited(rest, k - 1)
      case Attempt(rest) => Awaited(rest, k)
      case Report(code) => [ErrorFrame(code)]
  }

  /** Whether the plan has failed after k awaits, so that an error is due. */
  ghost predicate ReportDue(plan: Plan, k: nat) {
    match plan
    case Done => false
    case Synthesize(rest) => k > 0 && ReportDue(rest, k - 1)
    case Send(_, rest) => k > 0 && ReportDue(rest, k - 1)
    case Attempt(rest) => k > 0 && ReportDue(rest, k)
    case Report(_) => k == 0
  }

  /** The plan still runs when its k-th await is over. */
  ghost predicate LastsFor(plan: Plan, k: nat) {
    k == 0 ||
    match plan
    case Done => false
    case Synthesize(rest) => LastsFor(rest, k - 1)
    case Send(_, rest) => LastsFor(rest, k - 1)
    case Attempt(rest) => LastsFor(rest, k)
    case Report(_) => false
  }

  /** Await m is the first from n on that does not go on undisturbed: it finds its turn cancelled. */
  ghost predicate CancelledAt(resumed: nat -> Resumed, n: nat, m: nat) {
    n <= m && resumed(m) == TurnCancelled && forall i: nat :: n <= i < m ==> resumed(i).Undisturbed?
  }

  /** These frames, and then at most one error. */
  ghost predicate ThenError(sent: seq<Frame>, frames: seq<Frame>) {
    frames <= sent && |sent| <= |frames| + 1 && (sent == frames || sent[|frames|].ErrorFrame?)
  }

  /** Once an await finds its turn cancelled, no frame of the turn follows the one that was being
      sent; what may follow is the error of a synthesis that has failed meanwhile. */
  lemma {:induction false} CancelSendsNoMore(plan: Plan, resumed: nat -> Resumed, n: nat, k: nat)
    requires LastsFor(plan, k) && CancelledAt(resumed, n, n + k)
    ensures ThenError(Delivered(plan, resumed, n), Awaited(plan, k))
    ensures !ReportDue(plan, k) ==> Delivered(plan, resumed, n) == Awaited(plan, k)
    decreases plan, k
  {
    if k > 0 {
      assert resumed(n).Undisturbed?;
      match plan
      case Done =>
      case Synthesize(rest) =>
        OnwardIsDelivered(rest, resumed, n, k);
        CancelSendsNoMore(rest, resumed, n + 1, k - 1);
      case Send(frame, rest) =>
        OnwardIsDelivered(rest, resumed, n, k);
        CancelSendsNoMore(rest, resumed, n + 1, k - 1);
        ThenErrorNext(frame, Delivered(rest, resumed, n + 1), Awaited(rest, k - 1));
      case Attempt(rest) => CancelSendsNoMore(rest, resumed, n, k);
      case Report(_) =>
    }
  }

  lemma ThenErrorNext(frame: Frame, sent: seq<Frame>, frames: seq<Frame>)
    requires ThenError(sent, frames)
    ensures ThenError([frame] + sent, [frame] + frames)
  {
    if sent != frames {
      assert ([frame] + sent)[|frames| + 1] == sent[|frames|];
    }
  }

  /** Await m is the first from n on that does not go on undisturbed: it raises. */
  ghost predicate RaisedAt(resumed: nat -> Resumed, n: nat, m: nat) {
    n <= m && resumed(m).Raised? && forall i: nat :: n <= i < m ==> resumed(i).Undisturbed?
  }

  /** An exception is reported with its code, after the frames that had gone out, and is the last
      that is sent. */
  lemma {:induction false} RaiseIsReported(plan: Plan, resumed: nat -> Resumed, n: nat, k: nat)
    requires k > 0 && LastsFor(plan, k) && RaisedAt(resumed, n, n + k)
    ensures Delivered(plan, resumed, n) ==
            Awaited(plan, if resumed(n + k).delivered then k else k - 1)
            + Arrived(ErrorFrame(resumed(n + k).code), resumed(n + k + 1))
    decreases plan, k
  {
    var report := Arrived(ErrorFrame(resumed(n + k).code), resumed(n + k + 1));
    assert resumed(n).Undisturbed? && (k > 1 ==> resumed(n + 1).Undisturbed?);
    assert [] + report == report;
    match plan
    case Done =>
    case Synthesize(rest) => if k > 1 { RaiseIsReported(rest, resumed, n + 1, k - 1); }
    case Send(frame, rest) =>
      if k > 1 {
        RaiseIsReported(rest, resumed, n + 1, k - 1);
        Assoc([frame], Awaited(rest, if resumed(n + k).delivered then k - 1 else k - 2), report);
      } else {
        assert [frame] + [] == [frame];
      }
    case Attempt(rest) => RaiseIsReported(rest, resumed, n, k);
    case Report(_) =>
  }

  /** A sentence that fails, before or while its file is read, ends the turn with its code. */
  lemma FailureEndsTurn(turn: Turn, index: nat, audio: seq<Synthesis>)
    requires audio != [] && !audio[0].File?
    ensures var frames := Frames(TurnPlan(turn, index, audio));
            frames != [] && frames[|frames| - 1] == ErrorFrame(audio[0].code)
            && (audio[0].Failed? ==> |frames| == 1)
  {
    if audio[0].Broken? {
      EndsWithReport(audio[0].data, audio[0].code);
    }
  }

  /** A synthesis that fails is reported even when its turn has been cancelled meanwhile; the
      report goes out unless it is interrupted itself. */
  lemma FailureIsSent(turn: Turn, index: nat, code: string, next: Plan, resumed: nat -> Resumed, n: nat)
    requires resumed(n) == Undisturbed && resumed(n + 1) in {Undisturbed, TurnCancelled}
    ensures Delivered(Synthesize(SentencePlan(turn, index, Failed(code), next)), resumed, n) ==
            if resumed(n + 2) in {Undisturbed, TurnCancelled} || resumed(n + 2).delivered then [ErrorFrame(code)] else []
  {
    var report: Plan := Report(code);
    assert Delivered(report, resumed, n + 1) == Arrived(ErrorFrame(code), resumed(n + 2));
  }

  lemma {:induction false} EndsWithReport(data: seq<Byte>, code: string)
    ensures var frames := Frames(FilePlan(data, Attempt(Report(code))));
            frames != [] && frames[|frames| - 1] == ErrorFrame(code)
    decreases |data|
  {
    if data != [] {
      EndsWithReport(data[ReadSize(data)..], code);
    }
  }

  /** Audio leaves in reads of 1 to 32768 bytes. */
  lemma {:induction false} ReadsAreBounded(data: seq<Byte>, end: Plan, i: nat)
    requires i < |Frames(FilePlan(data, end))| - |Frames(end)|
    ensures var frame := Frames(FilePlan(data, end))[i];
            frame.Audio? && 1 <= |frame.chunk| <= 32768
            && (i + 1 < |Frames(FilePlan(data, end))| - |Frames(end)| ==> |frame.chunk| == 32768)
    decreases |data|
  {
    if data != [] {
      var rest := data[ReadSize(data)..];
      if i > 0 {
        ReadsAreBounded(rest, end, i - 1);
      } else if rest == [] {
        assert FilePlan(rest, end) == end;
      }
    }
  }

  /** While nothing is raised or killed, the plan goes on after an await. */
  lemma OnwardIsDelivered(rest: Plan, resumed: nat -> Resumed, n: nat, k: nat)
    requires k > 0 && CancelledAt(resumed, n, n + k)
    ensures Onward(rest, resumed, n + 1) == Delivered(rest, resumed, n + 1)
    ensures CancelledAt(resumed, n + 1, n + k)
  {
    assert n + 1 < n + k ==> resumed(n + 1).Undisturbed?;
  }

  ghost function AudioFrom(synthesize: nat -> Synthesis, i: nat, count: nat): seq<Synthesis>
    requires i <= count
  {
    seq(count - i, k requires 0 <= k < count - i => synthesize(i + k))
  }

  /** How a piece of the coroutine ended: to be continued, returned, or with an exception. */
  datatype Ending = Alive | Returned | Exception(code: string)

  /** What is still sent after a piece has ended, once `awaits` awaits have passed. */
  ghost function Rest(ending: Ending, next: Plan, resumed: nat -> Resumed, awaits: nat): seq<Frame> {
    match ending
    case Alive => Delivered(next, resumed, awaits)
    case Returned => []
    case Exception(code) => Arrived(ErrorFrame(code), resumed(awaits + 1))
  }

  function EndingOf(resumed: Resumed): Ending {
    match resumed
    case Raised(_, code) => Exception(code)
    case Killed(_) => Returned
    case _ => Alive
  }

  lemma SendNext(frame: Frame, rest: Plan, resumed: nat -> Resumed, n: nat)
    requires resumed(n).Undisturbed?
    ensures Delivered(Send(frame, rest), resumed, n)
         == Arrived(frame, resumed(n + 1)) + Rest(EndingOf(resumed(n + 1)), rest, resumed, n + 1)
  {
  }

  lemma ReadNext(data: seq<Byte>, end: Plan, resumed: nat -> Resumed, n: nat)
    requires resumed(n).Undisturbed? && data != []
    ensures Delivered(FilePlan(data, end), resumed, n)
         == Arrived(Audio(data[..ReadSize(data)]), resumed(n + 1))
            + Rest(EndingOf(resumed(n + 1)), FilePlan(data[ReadSize(data)..], end), resumed, n + 1)
  {
    var k := ReadSize(data);
    SendNext(Audio(data[..k]), FilePlan(data[k..], end), resumed, n);
  }

  /** The tts.start frame, the file in reads of 32 KiB, and the tts.end frame. */
  method StreamFile(turn: Turn, index: nat, file: Synthesis, resumed: nat -> Resumed,
                    first: nat, ghost next: Plan)
    returns (sent: seq<Frame>, awaits: nat, ending: Ending)
    requires !file.Failed? && resumed(first).Undisturbed?
    ensures Delivered(SentencePlan(turn, index, file, next), resumed, first) == sent + Rest(ending, next, resumed, awaits)
  {
    var start, unread := StartFrame(turn, index), file.data;
    ghost var end := FileEnd(turn, index, file, next);
    SendNext(start, FilePlan(file.data, end), resumed, first);
    awaits := first + 1;
    sent, ending := Arrived(start, resumed(awaits)), EndingOf(resumed(awaits));
    ghost var all := sent + Rest(ending, FilePlan(unread, end), resumed, awaits);
    while ending.Alive? && resumed(awaits).Undisturbed? && unread != []
      invariant all == sent + Rest(ending, FilePlan(unread, end), resumed, awaits)
      decreases |unread|
    {
      var n := ReadSize(unread);
      var chunk := Audio(unread[..n]);
      ReadNext(unread, end, resumed, awaits);
      unread, awaits := unread[n..], awaits + 1;
      Assoc(sent, Arrived(chunk, resumed(awaits)),
            Rest(EndingOf(resumed(awaits)), FilePlan(unread, end), resumed, awaits));
      sent, ending := sent + Arrived(chunk, resumed(awaits)), EndingOf(resumed(awaits));
    }
    if ending.Alive? {
      if !resumed(awaits).Undisturbed? {
        CancelledSendsNothing(unread, turn, index, file, next, resumed, awaits);
        ending := Returned;
      } else if file.Broken? {
        assert Delivered(Report(file.code), resumed, awaits) == Arrived(ErrorFrame(file.code), resumed(awaits + 1));
        ending := Exception(file.code);
      } else {
        var last := EndFrame(turn, index);
        SendNext(last, next, resumed, awaits);
        awaits := awaits + 1;
        Assoc(sent, Arrived(last, resumed(awaits)), Rest(EndingOf(resumed(awaits)), next, resumed, awaits));
        sent, ending := sent + Arrived(last, resumed(awaits)), EndingOf(resumed(awaits));
      }
    } else {
      assert Rest(ending, FilePlan(unread, end), resumed, awaits) == Rest(ending, next, resumed, awaits);
    }
  }

  lemma CancelledSendsNothing(data: seq<Byte>, turn: Turn, index: nat, file: Synthesis, next: Plan,
                              resumed: nat -> Resumed, n: nat)
    requires !file.Failed? && !resumed(n).Undisturbed?
    ensures Delivered(FilePlan(data, FileEnd(turn, index, file, next)), resumed, n) == []
  {
  }

  ghost function PlanFrom(turn: Turn, synthesize: nat -> Synthesis, i: nat, count: nat): Plan
    requires i <= count
  {
    TurnPlan(turn, i, AudioFrom(synthesize, i, count))
  }

  lemma PlanNext(turn: Turn, synthesize: nat -> Synthesis, i: nat, count: nat)
    requires i < count
    ensures PlanFrom(turn, synthesize, i, count)
         == Synthesize(SentencePlan(turn, i, synthesize(i), PlanFrom(turn, synthesize, i + 1, count)))
  {
    var audio := AudioFrom(synthesize, i, count);
    assert audio[0] == synthesize(i) && audio[1..] == AudioFrom(synthesize, i + 1, count);
  }

  /** One sentence: synthesis, its checks, and the streaming of its file. */
  method SpeakSentence(turn: Turn, index: nat, synthesis: Synthesis, resumed: nat -> Resumed,
                       first: nat, ghost next: Plan)
    returns (sent: seq<Frame>, awaits: nat, ending: Ending)
    ensures Delivered(Synthesize(SentencePlan(turn, index, synthesis, next)), resumed, first)
         == sent + Rest(ending, next, resumed, awaits)
  {
    sent, awaits, ending := [], first, Returned;
    if !resumed(first).Undisturbed? {
      return;
    }
    awaits := first + 1;
    ending := EndingOf(resumed(awaits));
    if !ending.Alive? {
      return;
    }
    if synthesis.Failed? {
      assert SentencePlan(turn, index, synthesis, next) == Report(synthesis.code);
      assert Delivered(Report(synthesis.code), resumed, awaits)
          == Arrived(ErrorFrame(synthesis.code), resumed(awaits + 1));
      ending := Exception(synthesis.code);
      return;
    }
    if !resumed(awaits).Undisturbed? {
      assert Delivered(SentencePlan(turn, index, synthesis, next), resumed, awaits) == [];
      ending := Returned;
      return;
    }
    sent, awaits, ending := StreamFile(turn, index, synthesis, resumed, awaits, next);
  }

  /** The coroutine of one turn, with the outcome of every await as a parameter. */
  method SynthesizeAndSend(turn: Turn, sentences: seq<string>,
                           synthesize: nat -> Synthesis, resumed: nat -> Resumed)
    returns (sent: seq<Frame>)
    ensures sent == if sentences == [] then []
                    else Delivered(PlanFrom(turn, synthesize, 0, |sentences|), resumed, 0)
  {
    sent := [];
    if sentences == [] {
      return;
    }
    ghost var count, plan := |sentences|, PlanFrom(turn, synthesize, 0, |sentences|);
    ghost var all := Delivered(plan, resumed, 0);
    var awaits: nat, i, ending := 0, 0, Alive;
    while i < |sentences| && ending.Alive?
      invariant 0 <= i <= count && plan == PlanFrom(turn, synthesize, i, count)
      invariant all == sent + Rest(ending, plan, resumed, awaits)
      decreases count - i
    {
      PlanNext(turn, synthesize, i, count);
      plan := PlanFrom(turn, synthesize, i + 1, count);
      var frames, now, end := SpeakSentence(turn, i, synthesize(i), resumed, awaits, plan);
      Assoc(sent, frames, Rest(end, plan, resumed, now));
      sent, awaits, ending, i := sent + frames, now, end, i + 1;
    }
    if ending.Alive? && resumed(awaits).Undisturbed? {
      var complete := CompleteFrame(turn);
      awaits := awaits + 1;
      SendNext(complete, Done, resumed, awaits - 1);
      Assoc(sent, Arrived(complete, resumed(awaits)), Rest(EndingOf(resumed(awaits)), Done, resumed, awaits));
      sent, ending := sent + Arrived(complete, resumed(awaits)), EndingOf(resumed(awaits));
    }
    if ending.Exception? {
      sent := sent + Arrived(ErrorFrame(ending.code), resumed(awaits + 1));
    }
  }
}
