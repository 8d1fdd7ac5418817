/** The browser's conversation projection (frontend/src/console/conversationProjection.ts):
    the event reducer, the snapshot projection, and the merge with loaded history. */
module Projection {
  import opened Options
  import opened Sequences

  const SEEN_WINDOW: nat := 2000

  datatype Role = User | Assistant | Tool

  /** `extra` stands for the optional display fields (id, tool, status, duration, runId). */
  datatype Message = Message(role: Role, content: string, extra: map<string, string>)

  // ---- Merging loaded history with the realtime transcript -------------------

  predicate Matches(left: Message, right: Message) {
    left.role == right.role && left.content == right.content
  }

  predicate MatchAll(a: seq<Message>, b: seq<Message>) {
    |a| == |b| && forall i :: 0 <= i < |a| ==> Matches(a[i], b[i])
  }

  predicate StartsWith(s: seq<Message>, prefix: seq<Message>) {
    |prefix| <= |s| && MatchAll(s[..|prefix|], prefix)
  }

  predicate EndsWith(s: seq<Message>, suffix: seq<Message>) {
    |suffix| <= |s| && MatchAll(s[|s| - |suffix|..], suffix)
  }

  predicate BlockAt(s: seq<Message>, block: seq<Message>, at: nat) {
    at + |block| <= |s| && MatchAll(s[at..at + |block|], block)
  }

  /** The last n messages of the history are the first n of the realtime list. */
  predicate Overlaps(history: seq<Message>, realtime: seq<Message>, n: nat)
    requires n <= |history| && n <= |realtime|
  {
    MatchAll(history[|history| - n..], realtime[..n])
  }

  ghost predicate LongestOverlap(history: seq<Message>, realtime: seq<Message>, n: nat) {
    && n <= |history| && n <= |realtime| && Overlaps(history, realtime, n)
    && forall m: nat :: n < m <= |history| && m <= |realtime| ==> !Overlaps(history, realtime, m)
  }

  ghost predicate Merged(history: seq<Message>, realtime: seq<Message>, merged: seq<Message>) {
    if StartsWith(history, realtime) then merged == history
    else if StartsWith(realtime, history) then merged == realtime
    else exists n: nat :: LongestOverlap(history, realtime, n) && merged == history + realtime[n..]
  }

  method MergeConversationMessages(history: seq<Message>, realtime: seq<Message>)
    returns (merged: seq<Message>)
    ensures Merged(history, realtime, merged)
  {
    if |realtime| == 0 {
      return history;
    }
    if |realtime| <= |history| && MatchAll(history[..|realtime|], realtime) {
      return history;
    }
    if |history| <= |realtime| && MatchAll(realtime[..|history|], history) {
      return realtime;
    }
    var maximum := if |history| < |realtime| then |history| else |realtime|;
    var overlap, size := 0, maximum;
    while size > 0
      invariant 0 <= size <= maximum && overlap == 0
      invariant forall m: nat :: size < m <= maximum ==> !Overlaps(history, realtime, m)
    {
      if Overlaps(history, realtime, size) {
        overlap := size;
        break;
      }
      size := size - 1;
    }
    assert LongestOverlap(history, realtime, overlap);
    merged := history + realtime[overlap..];
  }

  /** There is always a merge. */
  lemma MergeExists(h: seq<Message>, r: seq<Message>)
    ensures exists merged :: Merged(h, r, merged)
  {
    if StartsWith(h, r) {
      assert Merged(h, r, h);
    } else if StartsWith(r, h) {
      assert Merged(h, r, r);
    } else {
      var n := OverlapUpTo(h, r, if |h| < |r| then |h| else |r|);
      assert LongestOverlap(h, r, n);
      assert Merged(h, r, h + r[n..]);
    }
  }

  ghost function OverlapUpTo(h: seq<Message>, r: seq<Message>, most: nat): (n: nat)
    requires most <= |h| && most <= |r|
    ensures n <= most && Overlaps(h, r, n)
    ensures forall m: nat :: n < m <= most ==> !Overlaps(h, r, m)
  {
    if most == 0 || Overlaps(h, r, most) then most else OverlapUpTo(h, r, most - 1)
  }

  /** The merge is unique: it is a function of the two lists. */
  lemma MergedUnique(h: seq<Message>, r: seq<Message>, a: seq<Message>, b: seq<Message>)
    requires Merged(h, r, a) && Merged(h, r, b)
    ensures a == b
  {
    if !StartsWith(h, r) && !StartsWith(r, h) {
      var m: nat :| LongestOverlap(h, r, m) && a == h + r[m..];
      var n: nat :| LongestOverlap(h, r, n) && b == h + r[n..];
      assert m == n;
    }
  }

  /** History stays a prefix and the realtime list a contiguous block of the merge. */
  lemma MergeKeepsBoth(h: seq<Message>, r: seq<Message>, merged: seq<Message>)
    requires Merged(h, r, merged)
    ensures StartsWith(merged, h)
    ensures exists at: nat :: BlockAt(merged, r, at)
    ensures !StartsWith(h, r) ==> EndsWith(merged, r)
  {
    if StartsWith(h, r) {
      assert BlockAt(merged, r, 0);
    } else if StartsWith(r, h) {
      assert merged[0..0 + |r|] == r;
      assert BlockAt(merged, r, 0);
    } else {
      var n: nat :| LongestOverlap(h, r, n) && merged == h + r[n..];
      OverlapBlock(h, r, n);
    }
  }

  /** From `at` on, a reader sees these roles and contents. */
  ghost predicate SeenAt(s: seq<Message>, at: int, block: seq<Message>) {
    0 <= at <= |s| - |block|
    && forall i :: 0 <= i < |block| ==> s[at + i].role == block[i].role && s[at + i].content == block[i].content
  }

  /** In the fields a reader sees: the merge begins with the history, and somewhere shows the
      realtime list, in one piece. */
  lemma MergeShowsBoth(h: seq<Message>, r: seq<Message>, merged: seq<Message>)
    requires Merged(h, r, merged)
    ensures SeenAt(merged, 0, h) && exists at :: SeenAt(merged, at, r)
  {
    MergeKeepsBoth(h, r, merged);
    assert SeenAt(merged, 0, h) by {
      assert forall i :: 0 <= i < |h| ==> Matches(merged[..|h|][i], h[i]);
    }
    var at: nat :| BlockAt(merged, r, at);
    assert forall i :: 0 <= i < |r| ==> Matches(merged[at..at + |r|][i], r[i]);
    assert SeenAt(merged, at, r);
  }

  /** And no shorter list begins with the one and ends with the other, when neither list
      continues the other. */
  lemma MergeShowsLeast(h: seq<Message>, r: seq<Message>, merged: seq<Message>, other: seq<Message>)
    requires Merged(h, r, merged) && !StartsWith(h, r) && !StartsWith(r, h)
    requires SeenAt(other, 0, h) && SeenAt(other, |other| - |r|, r)
    ensures |merged| <= |other|
  {
    assert forall i :: 0 <= i < |h| ==> Matches(other[..|h|][i], h[i]);
    assert forall i :: 0 <= i < |r| ==> Matches(other[|other| - |r|..][i], r[i]);
    MergeShortest(h, r, merged, other);
  }

  /** Appending the rest after an overlap leaves the realtime list as a suffix. */
  lemma OverlapBlock(h: seq<Message>, r: seq<Message>, n: nat)
    requires n <= |h| && n <= |r| && Overlaps(h, r, n)
    ensures BlockAt(h + r[n..], r, |h| - n) && EndsWith(h + r[n..], r)
    ensures StartsWith(h + r[n..], h)
  {
    var merged, at := h + r[n..], |h| - n;
    assert merged[at..at + |r|] == h[at..] + r[n..];
    assert merged[..|h|] == h;
    assert at + |r| == |merged| && merged[at..] == merged[at..at + |r|];
    forall i | 0 <= i < |r|
      ensures Matches(merged[at..][i], r[i])
    {
      if i < n {
        assert Matches(h[at..][i], r[..n][i]);
      }
    }
  }

  /** When neither list continues the other, no shorter list has the history as its
      prefix and the realtime list as its suffix. */
  lemma MergeShortest(h: seq<Message>, r: seq<Message>, merged: seq<Message>, other: seq<Message>)
    requires Merged(h, r, merged) && !StartsWith(h, r) && !StartsWith(r, h)
    requires StartsWith(other, h) && EndsWith(other, r)
    ensures |merged| <= |other|
  {
    if |other| < |merged| {
      OverlapOf(h, r, other);
    }
  }

  /** A list that starts with h and ends with r and is shorter than both together
      makes them overlap by the difference. */
  lemma OverlapOf(h: seq<Message>, r: seq<Message>, other: seq<Message>)
    requires StartsWith(other, h) && EndsWith(other, r) && |other| <= |h| + |r|
    ensures Overlaps(h, r, |h| + |r| - |other|)
  {
    var m := |h| + |r| - |other|;
    forall i | 0 <= i < m
      ensures Matches(h[|h| - m..][i], r[..m][i])
    {
      assert Matches(other[..|h|][|h| - m + i], h[|h| - m + i]);
      assert Matches(other[|other| - |r|..][i], r[i]);
    }
  }

  /** Merging again with the same realtime list changes nothing. */
  lemma MergeIdempotent(h: seq<Message>, r: seq<Message>, merged: seq<Message>, again: seq<Message>)
    requires Merged(h, r, merged) && Merged(merged, r, again)
    ensures again == merged
  {
    MergeKeepsBoth(h, r, merged);
    if !StartsWith(h, r) {
      SuffixAbsorbed(merged, r, again);
    }
  }

  lemma SuffixAbsorbed(s: seq<Message>, r: seq<Message>, again: seq<Message>)
    requires EndsWith(s, r) && Merged(s, r, again)
    ensures again == s
  {
    if !StartsWith(s, r) && !StartsWith(r, s) {
      assert Overlaps(s, r, |r|) by { assert r[..|r|] == r; }
      var n: nat :| LongestOverlap(s, r, n) && again == s + r[n..];
      assert n == |r|;
    }
  }

  // ---- The event reducer -----------------------------------------------------

  /** A JSON value, as far as the reducer looks at it. */
  datatype Value = Text(text: string) | Flag(flag: bool) | Number(number: int) | Null | Structure(id: int)

  type Doc = map<string, Value>

  datatype Event = Event(id: string, typ: string, payload: Doc)

  datatype View = View(
    cursor: Option<string>,
    seen: seq<string>,
    messages: seq<Message>,
    sessions: map<string, Doc>,
    toolCalls: map<string, Doc>,
    approvals: map<string, Doc>,
    workerJobs: map<string, Doc>,
    artifacts: map<string, Doc>,
    listening: bool,
    speaking: bool)

  predicate Includes(s: string, word: string) {
    |word| <= |s| && (s[..|word|] == word || (s != "" && Includes(s[1..], word)))
  }

  predicate Truthy(v: Option<Value>) {
    match v
    case None => false
    case Some(Text(t)) => t != ""
    case Some(Flag(b)) => b
    case Some(Number(n)) => n != 0
    case Some(Null) => false
    case Some(Structure(_)) => true
  }

  function TextAt(doc: Doc, key: string): Option<string> {
    if key in doc && doc[key].Text? then Some(doc[key].text) else None
  }

  function SpokenText(payload: Doc): Option<string> {
    if TextAt(payload, "text").Some? then TextAt(payload, "text")
    else if TextAt(payload, "content").Some? then TextAt(payload, "content")
    else TextAt(payload, "transcript")
  }

  /** What an event adds to the transcript: at most one message. */
  function Said(event: Event): seq<Message> {
    match SpokenText(event.payload)
    case None => []
    case Some(text) =>
      if text == "" then []
      else if Includes(event.typ, "user.transcript") || event.typ == "input.accepted" then
        [Message(User, text, map[])]
      else if Includes(event.typ, "hermes.transcript.completed") || Includes(event.typ, "assistant.completed") then
        [Message(Assistant, text, map[])]
      else []
  }

  datatype Table = ToolCalls | Approvals | WorkerJobs | Artifacts

  function IdKey(table: Table): string {
    match table
    case ToolCalls => "tool_call_id"
    case Approvals => "approval_id"
    case WorkerJobs => "worker_job_id"
    case Artifacts => "artifact_id"
  }

  function Names(event: Event, table: Table): Option<string> {
    TextAt(event.payload, IdKey(table))
  }

  function Outcome(event: Event, table: Table): Option<Value> {
    match table
    case ToolCalls =>
      if Includes(event.typ, "failed") || Lookup(event.payload, "ok") == Some(Flag(false)) then Some(Text("failed"))
      else if Includes(event.typ, "completed") then Some(Text("completed"))
      else Lookup(event.payload, "status")
    case Approvals =>
      if Includes(event.typ, "denied") then Some(Text("denied"))
      else if Includes(event.typ, "expired") then Some(Text("expired"))
      else if Includes(event.typ, "resolved") then Some(Text("resolved"))
      else Lookup(event.payload, "state")
    case _ => None
  }

  /** The entry an event leaves behind: old fields, payload fields, the event type, and
      the outcome the type or payload announces. */
  function Entry(old_: Option<Doc>, event: Event, table: Table): Doc {
    var base := (if old_.Some? then old_.value else map[]) + event.payload + map["type" := Text(event.typ)];
    var outcome := Outcome(event, table);
    if Truthy(outcome) then base[(if table == ToolCalls then "status" else "state") := outcome.value] else base
  }

  function Updated(entries: map<string, Doc>, event: Event, table: Table): map<string, Doc> {
    match Names(event, table)
    case None => entries
    case Some(id) => if id == "" then entries else entries[id := Entry(Lookup(entries, id), event, table)]
  }

  function ProjectEvent(current: View, event: Event): View {
    if event.id in current.seen then current
    else
      View(
        Some(event.id),
        LastN(current.seen + [event.id], SEEN_WINDOW),
        current.messages + Said(event),
        current.sessions,
        Updated(current.toolCalls, event, ToolCalls),
        Updated(current.approvals, event, Approvals),
        Updated(current.workerJobs, event, WorkerJobs),
        Updated(current.artifacts, event, Artifacts),
        if event.typ == "speech.stopped" then false
        else event.typ == "speech.started" || current.listening,
        if event.typ == "response.completed" then false
        else event.typ == "hermes.transcript.delta" || current.speaking)
  }

  // ---- What one event does ---------------------------------------------------------------

  ghost predicate WordAt(s: string, word: string, i: int) {
    0 <= i <= |s| - |word| && s[i..i + |word|] == word
  }

  lemma {:induction false} IncludesIff(s: string, word: string)
    ensures Includes(s, word) <==> exists i :: WordAt(s, word, i)
  {
    if |word| <= |s| {
      assert WordAt(s, word, 0) <==> s[..|word|] == word;
      if s != "" {
        IncludesIff(s[1..], word);
        if i :| i > 0 && WordAt(s, word, i) {
          assert s[1..][i - 1..i - 1 + |word|] == s[i..i + |word|];
          assert WordAt(s[1..], word, i - 1);
        }
        if i :| WordAt(s[1..], word, i) {
          assert s[1..][i..i + |word|] == s[i + 1..i + 1 + |word|];
          assert WordAt(s, word, i + 1);
        }
      }
    }
  }

  /** The text of an event: its text, or else its content, or else its transcript, whichever is
      the first that is a string. */
  lemma TextDecides(payload: Doc, text: string)
    ensures SpokenText(payload) == Some(text) <==>
              if "text" in payload && payload["text"].Text? then payload["text"] == Text(text)
              else if "content" in payload && payload["content"].Text? then payload["content"] == Text(text)
              else "transcript" in payload && payload["transcript"] == Text(text)
  {
  }

  /** Who says what: a user's transcript and an accepted input are the user's, a completed
      transcript or answer is the assistant's, and nothing else is said; nor is an empty text. */
  lemma SaidDecides(event: Event, text: string)
    requires SpokenText(event.payload) == Some(text)
    ensures var users := Includes(event.typ, "user.transcript") || event.typ == "input.accepted";
            var assistants := Includes(event.typ, "hermes.transcript.completed")
                              || Includes(event.typ, "assistant.completed");
            && (Said(event) == [Message(User, text, map[])] <==> text != "" && users)
            && (Said(event) == [Message(Assistant, text, map[])] <==> text != "" && !users && assistants)
            && (Said(event) == [] <==> text == "" || (!users && !assistants))
  {
  }

  lemma NothingToSay(event: Event)
    requires SpokenText(event.payload).None?
    ensures Said(event) == []
  {
  }

  /** Which field of the payload names what. */
  lemma NamesDecides(event: Event, id: string)
    ensures Names(event, ToolCalls) == Some(id) <==>
              "tool_call_id" in event.payload && event.payload["tool_call_id"] == Text(id)
    ensures Names(event, Approvals) == Some(id) <==>
              "approval_id" in event.payload && event.payload["approval_id"] == Text(id)
    ensures Names(event, WorkerJobs) == Some(id) <==>
              "worker_job_id" in event.payload && event.payload["worker_job_id"] == Text(id)
    ensures Names(event, Artifacts) == Some(id) <==>
              "artifact_id" in event.payload && event.payload["artifact_id"] == Text(id)
  {
  }

  /** A tool call failed, completed, or has the status it says. */
  lemma ToolStatusDecides(old_: Option<Doc>, event: Event)
    ensures var entry, ok, own := Entry(old_, event, ToolCalls), Lookup(event.payload, "ok"),
                                  Lookup(event.payload, "status");
            if Includes(event.typ, "failed") || ok == Some(Flag(false))
            then Lookup(entry, "status") == Some(Text("failed"))
            else if Includes(event.typ, "completed") then Lookup(entry, "status") == Some(Text("completed"))
            else own.Some? ==> Lookup(entry, "status") == own
  {
  }

  /** An approval was denied, expired or resolved, or has the state it says. */
  lemma ApprovalStateDecides(old_: Option<Doc>, event: Event)
    ensures var entry, own := Entry(old_, event, Approvals), Lookup(event.payload, "state");
            if Includes(event.typ, "denied") then Lookup(entry, "state") == Some(Text("denied"))
            else if Includes(event.typ, "expired") then Lookup(entry, "state") == Some(Text("expired"))
            else if Includes(event.typ, "resolved") then Lookup(entry, "state") == Some(Text("resolved"))
            else own.Some? ==> Lookup(entry, "state") == own
  {
  }

  /** Every other field is the payload's or the old one, and the type is the event's. */
  lemma FieldsDecide(old_: Option<Doc>, event: Event, table: Table, field: string)
    ensures Lookup(Entry(old_, event, table), "type") == Some(Text(event.typ))
    ensures field != "type" && !(table.ToolCalls? && field == "status") && !(table.Approvals? && field == "state") ==>
              Lookup(Entry(old_, event, table), field) ==
              if field in event.payload then Some(event.payload[field])
              else if old_.Some? then Lookup(old_.value, field) else None
  {
  }

  /** A new event moves the cursor, is said, and touches the entries it names, each in its own
      table, and nothing else. */
  lemma EventTouches(view: View, event: Event)
    requires event.id !in view.seen
    ensures var next := ProjectEvent(view, event);
            && next.cursor == Some(event.id) && next.sessions == view.sessions
            && next.messages == view.messages + Said(event)
            && next.toolCalls == Touched(view.toolCalls, event, ToolCalls)
            && next.approvals == Touched(view.approvals, event, Approvals)
            && next.workerJobs == Touched(view.workerJobs, event, WorkerJobs)
            && next.artifacts == Touched(view.artifacts, event, Artifacts)
  {
  }

  /** The two indicators follow their two events each. */
  lemma EventSwitches(view: View, event: Event)
    requires event.id !in view.seen
    ensures var next := ProjectEvent(view, event);
            && (event.typ == "speech.started" ==> next.listening)
            && (event.typ == "speech.stopped" ==> !next.listening)
            && (event.typ != "speech.started" && event.typ != "speech.stopped" ==> next.listening == view.listening)
            && (event.typ == "hermes.transcript.delta" ==> next.speaking)
            && (event.typ == "response.completed" ==> !next.speaking)
            && (event.typ != "hermes.transcript.delta" && event.typ != "response.completed" ==>
                  next.speaking == view.speaking)
  {
  }

  ghost function Touched(entries: map<string, Doc>, event: Event, table: Table): map<string, Doc> {
    if exists id :: id != "" && Names(event, table) == Some(id)
    then entries[Names(event, table).value := Entry(Lookup(entries, Names(event, table).value), event, table)]
    else entries
  }

  function Fold(view: View, events: seq<Event>): View {
    if events == [] then view else ProjectEvent(Fold(view, events[..|events| - 1]), events[|events| - 1])
  }

  function Ids(events: seq<Event>): seq<string> {
    seq(|events|, i requires 0 <= i < |events| => events[i].id)
  }

  /** The events carry distinct ids, none of them in the view's window. */
  ghost predicate Fresh(view: View, events: seq<Event>) {
    && (forall i, j :: 0 <= i < j < |events| ==> events[i].id != events[j].id)
    && (forall i :: 0 <= i < |events| ==> events[i].id !in view.seen)
  }

  /** The window after fresh events: the last 2000 ids, in order. */
  lemma {:induction false} SeenAfter(view: View, events: seq<Event>)
    requires Fresh(view, events) && |view.seen| <= SEEN_WINDOW
    ensures Fold(view, events).seen == LastN(view.seen + Ids(events), SEEN_WINDOW)
  {
    if events == [] {
      assert view.seen + Ids(events) == view.seen;
    } else {
      var init, last := events[..|events| - 1], events[|events| - 1];
      var ids := view.seen + Ids(init);
      calc {
        Fold(view, events).seen;
        { NotYetSeen(view, events); }
        LastN(Fold(view, init).seen + [last.id], SEEN_WINDOW);
        { SeenAfter(view, init); }
        LastN(LastN(ids, SEEN_WINDOW) + [last.id], SEEN_WINDOW);
        { LastNAppend(ids, last.id, SEEN_WINDOW); }
        LastN(ids + [last.id], SEEN_WINDOW);
        { assert view.seen + Ids(events) == ids + [last.id]; }
        LastN(view.seen + Ids(events), SEEN_WINDOW);
      }
    }
  }

  /** The last of a list of fresh events is still fresh after the others. */
  lemma NotYetSeen(view: View, events: seq<Event>)
    requires Fresh(view, events) && events != []
    ensures Fresh(view, events[..|events| - 1])
    ensures events[|events| - 1].id !in Fold(view, events[..|events| - 1]).seen
  {
    NeverSeen(view, events[..|events| - 1], events[|events| - 1].id);
  }

  lemma {:induction false} NeverSeen(view: View, events: seq<Event>, id: string)
    requires id !in view.seen && forall i :: 0 <= i < |events| ==> events[i].id != id
    ensures id !in Fold(view, events).seen
  {
    if events != [] {
      NeverSeen(view, events[..|events| - 1], id);
    }
  }

  /** Replaying any events whose ids are still in the window changes nothing at all. */
  lemma {:induction false} RefoldIgnored(view: View, again: seq<Event>)
    requires forall i :: 0 <= i < |again| ==> again[i].id in view.seen
    ensures Fold(view, again) == view
  {
    if again != [] {
      RefoldIgnored(view, again[..|again| - 1]);
    }
  }

  /** So a replay of up to the last 2000 folded events is absorbed. */
  lemma ReplayAbsorbed(view: View, events: seq<Event>, from: nat)
    requires Fresh(view, events) && |view.seen| <= SEEN_WINDOW
    requires from <= |events| <= from + SEEN_WINDOW
    ensures Fold(Fold(view, events), events[from..]) == Fold(view, events)
  {
    SeenAfter(view, events);
    forall i | 0 <= i < |events[from..]|
      ensures events[from..][i].id in Fold(view, events).seen
    {
      InLastN(view.seen, Ids(events), from + i, SEEN_WINDOW);
    }
    RefoldIgnored(Fold(view, events), events[from..]);
  }

  /** An event is ignored if and only if its id is in the window. */
  lemma ReplayIgnoredIff(view: View, event: Event)
    ensures ProjectEvent(view, event) == view <==> event.id in view.seen
  {
    if event.id !in view.seen {
      var seen := ProjectEvent(view, event).seen;
      assert seen[|seen| - 1] == event.id;
    }
  }

  lemma NotAmongLast(ids: seq<string>, n: nat, id: string)
    requires forall j :: |ids| - n <= j < |ids| && 0 <= j ==> ids[j] != id
    ensures id !in LastN(ids, n)
  {
  }

  /** Of distinct ids, the last 2000 are in the window and no others. */
  lemma InWindowIff(seen: seq<string>, events: seq<Event>, i: nat)
    requires i < |events|
    requires forall j :: i < j < |events| ==> events[j].id != events[i].id
    ensures (events[i].id in LastN(seen + Ids(events), SEEN_WINDOW)) == (|events| <= i + SEEN_WINDOW)
  {
    var ids := seen + Ids(events);
    if |events| <= i + SEEN_WINDOW {
      InLastN(seen, Ids(events), i, SEEN_WINDOW);
    } else {
      forall j | |ids| - SEEN_WINDOW <= j < |ids|
        ensures ids[j] != events[i].id
      {
        assert ids[j] == events[j - |seen|].id;
      }
      NotAmongLast(ids, SEEN_WINDOW, events[i].id);
    }
  }

  /** A folded event is ignored when it is replayed if and only if fewer than 2000 events
      have been folded after it. */
  lemma FoldedIgnoredIff(view: View, events: seq<Event>, i: nat)
    requires Fresh(view, events) && |view.seen| <= SEEN_WINDOW && i < |events|
    ensures ProjectEvent(Fold(view, events), events[i]) == Fold(view, events) <==> |events| <= i + SEEN_WINDOW
  {
    SeenAfter(view, events);
    ReplayIgnoredIff(Fold(view, events), events[i]);
    InWindowIff(view.seen, events, i);
  }

  /** The event is outside the window once the events before it have been seen. */
  ghost predicate NewAfter(seen: seq<string>, before: seq<Event>, event: Event) {
    event.id !in LastN(seen + Ids(before), SEEN_WINDOW)
  }

  /** Each event is outside the window as it is when that event arrives. */
  ghost predicate AllNew(seen: seq<string>, events: seq<Event>) {
    forall k :: 0 <= k < |events| ==> NewAfter(seen, events[..k], events[k])
  }

  lemma AllNewNext(seen: seq<string>, events: seq<Event>)
    requires events != []
    ensures AllNew(seen, events) <==>
              AllNew(seen, events[..|events| - 1]) && NewAfter(seen, events[..|events| - 1], events[|events| - 1])
  {
    var init, n := events[..|events| - 1], |events| - 1;
    assert forall k :: 0 <= k < n ==> init[..k] == events[..k] && init[k] == events[k];
    if AllNew(seen, init) && NewAfter(seen, init, events[n]) {
      forall k | 0 <= k < |events|
        ensures NewAfter(seen, events[..k], events[k])
      {
        assert k < n ==> NewAfter(seen, init[..k], init[k]);
      }
    }
    if AllNew(seen, events) {
      forall k | 0 <= k < n
        ensures NewAfter(seen, init[..k], init[k])
      {
        assert NewAfter(seen, events[..k], events[k]);
      }
    }
  }

  /** What a view has seen and shows as said. */
  ghost predicate Shows(view: View, ids: seq<string>, messages: seq<Message>) {
    view.seen == LastN(ids, SEEN_WINDOW) && view.messages == messages
  }

  lemma ShowsNext(view: View, ids: seq<string>, messages: seq<Message>, event: Event)
    requires Shows(view, ids, messages) && event.id !in LastN(ids, SEEN_WINDOW)
    ensures Shows(ProjectEvent(view, event), ids + [event.id], messages + Said(event))
  {
    LastNAppend(ids, event.id, SEEN_WINDOW);
  }

  /** Events that are new when they arrive are all folded. */
  lemma {:induction false} NewIsFolded(view: View, ids: seq<string>, events: seq<Event>)
    requires Shows(view, ids, view.messages) && AllNew(ids, events)
    ensures Shows(Fold(view, events), ids + Ids(events), view.messages + Transcript(events))
  {
    if events == [] {
      assert ids + Ids(events) == ids && view.messages + [] == view.messages;
    } else {
      var init, last := events[..|events| - 1], events[|events| - 1];
      AllNewNext(ids, events);
      NewIsFolded(view, ids, init);
      ShowsNext(Fold(view, init), ids + Ids(init), view.messages + Transcript(init), last);
      IdsNext(ids, events);
      SaidNext(view.messages, events);
    }
  }

  lemma IdsNext(ids: seq<string>, events: seq<Event>)
    requires events != []
    ensures ids + Ids(events) == ids + Ids(events[..|events| - 1]) + [events[|events| - 1].id]
  {
  }

  lemma SaidNext(messages: seq<Message>, events: seq<Event>)
    requires events != []
    ensures messages + Transcript(events)
         == messages + Transcript(events[..|events| - 1]) + Said(events[|events| - 1])
  {
    Assoc(messages, Transcript(events[..|events| - 1]), Said(events[|events| - 1]));
  }

  /** More than 2000 events later, the events from some point on are new again. */
  lemma ForgottenIsNew(seen: seq<string>, events: seq<Event>, from: nat)
    requires forall i, j :: 0 <= i < j < |events| ==> events[i].id != events[j].id
    requires from + SEEN_WINDOW < |events|
    ensures AllNew(seen + Ids(events), events[from..])
  {
    var again := events[from..];
    forall k | 0 <= k < |again|
      ensures NewAfter(seen + Ids(events), again[..k], again[k])
    {
      var ids := seen + Ids(events) + Ids(again[..k]);
      forall j | |ids| - SEEN_WINDOW <= j < |ids|
        ensures ids[j] != events[from + k].id
      {
        assert ids[j] == if j < |seen| + |events| then events[j - |seen|].id
                         else events[from + j - |seen| - |events|].id;
      }
      NotAmongLast(ids, SEEN_WINDOW, events[from + k].id);
    }
  }

  lemma ReplayRepeats(view: View, events: seq<Event>, from: nat)
    requires Fresh(view, events) && |view.seen| <= SEEN_WINDOW && from + SEEN_WINDOW < |events|
    ensures Fold(Fold(view, events), events[from..]).messages
         == Fold(view, events).messages + Transcript(events[from..])
  {
    SeenAfter(view, events);
    ForgottenIsNew(view.seen, events, from);
    NewIsFolded(Fold(view, events), view.seen + Ids(events), events[from..]);
  }

  /** Replaying the events from some point on changes nothing when there are at most 2000 of
      them; otherwise every one of them is folded again, and all they said appears twice. */
  lemma ReplayAllOrNothing(view: View, events: seq<Event>, from: nat)
    requires Fresh(view, events) && |view.seen| <= SEEN_WINDOW && from <= |events|
    ensures |events| <= from + SEEN_WINDOW ==> Fold(Fold(view, events), events[from..]) == Fold(view, events)
    ensures |events| > from + SEEN_WINDOW ==>
              Fold(Fold(view, events), events[from..]).messages
              == Fold(view, events).messages + Transcript(events[from..])
  {
    if |events| <= from + SEEN_WINDOW {
      ReplayAbsorbed(view, events, from);
    } else {
      ReplayRepeats(view, events, from);
    }
  }

  ghost const EMPTY_VIEW := View(None, [], [], map[], map[], map[], map[], map[], false, false)

  /** n user messages with distinct ids. */
  function Chatter(n: nat): seq<Event> {
    seq(n, i requires 0 <= i < n => Event(seq(i, _ => 'e'), "input.accepted", map["text" := Text("hello")]))
  }

  lemma ChatterIsFresh(n: nat)
    ensures Fresh(EMPTY_VIEW, Chatter(n))
  {
    forall i, j | 0 <= i < j < n
      ensures Chatter(n)[i].id != Chatter(n)[j].id
    {
      assert |Chatter(n)[i].id| == i && |Chatter(n)[j].id| == j;
    }
  }

  lemma GreetingSaid(event: Event)
    requires event.typ == "input.accepted" && event.payload == map["text" := Text("hello")]
    ensures Said(event) == [Message(User, "hello", map[])]
  {
  }

  /** The reducer's promise fails for an event followed by 2000 others: its replay says its
      message again. */
  lemma LateReplayRepeats()
    ensures var view, first := Fold(EMPTY_VIEW, Chatter(SEEN_WINDOW + 1)), Chatter(SEEN_WINDOW + 1)[0];
            ProjectEvent(view, first).messages == view.messages + [Message(User, "hello", map[])]
  {
    var events := Chatter(SEEN_WINDOW + 1);
    ChatterIsFresh(SEEN_WINDOW + 1);
    FoldedIgnoredIff(EMPTY_VIEW, events, 0);
    ReplayIgnoredIff(Fold(EMPTY_VIEW, events), events[0]);
    GreetingSaid(events[0]);
  }

  function TableOf(view: View, table: Table): map<string, Doc> {
    match table
    case ToolCalls => view.toolCalls
    case Approvals => view.approvals
    case WorkerJobs => view.workerJobs
    case Artifacts => view.artifacts
  }

  function Naming(events: seq<Event>, table: Table, id: string): seq<Event> {
    if events == [] then []
    else Naming(events[..|events| - 1], table, id) +
         (if Names(events[|events| - 1], table) == Some(id) then [events[|events| - 1]] else [])
  }

  /** One entity's own history: its entry after the events that name it. */
  function EntryFold(entry: Option<Doc>, events: seq<Event>, table: Table): Option<Doc> {
    if events == [] then entry
    else Some(Entry(EntryFold(entry, events[..|events| - 1], table), events[|events| - 1], table))
  }

  /** One new event touches exactly the entries it names. */
  lemma EntryStep(view: View, event: Event, table: Table, id: string)
    requires event.id !in view.seen && id != ""
    ensures Lookup(TableOf(ProjectEvent(view, event), table), id) ==
            if Names(event, table) == Some(id) then Some(Entry(Lookup(TableOf(view, table), id), event, table))
            else Lookup(TableOf(view, table), id)
  {
  }

  lemma {:induction false} EntryIsOwnHistory(view: View, events: seq<Event>, table: Table, id: string)
    requires Fresh(view, events) && id != ""
    ensures Lookup(TableOf(Fold(view, events), table), id)
         == EntryFold(Lookup(TableOf(view, table), id), Naming(events, table, id), table)
  {
    if events != [] {
      var init, last := events[..|events| - 1], events[|events| - 1];
      NotYetSeen(view, events);
      EntryIsOwnHistory(view, init, table, id);
      EntryStep(Fold(view, init), last, table, id);
      if Names(last, table) == Some(id) {
        var own := Naming(init, table, id) + [last];
        assert own[..|own| - 1] == Naming(init, table, id);
      } else {
        assert Naming(init, table, id) + [] == Naming(init, table, id);
      }
    }
  }

  lemma {:induction false} NamingFresh(view: View, events: seq<Event>, table: Table, id: string)
    requires Fresh(view, events)
    ensures Fresh(view, Naming(events, table, id))
    ensures forall e :: e in Naming(events, table, id) ==> e in events
  {
    if events != [] {
      var init, last := events[..|events| - 1], events[|events| - 1];
      NamingFresh(view, init, table, id);
      var own := Naming(init, table, id);
      forall i | 0 <= i < |own|
        ensures own[i].id != last.id && own[i].id !in view.seen
      {
        assert own[i] in init;
      }
    }
  }

  lemma {:induction false} NamingTwice(events: seq<Event>, table: Table, id: string)
    ensures Naming(Naming(events, table, id), table, id) == Naming(events, table, id)
  {
    if events != [] {
      var own, last := Naming(events[..|events| - 1], table, id), events[|events| - 1];
      NamingTwice(events[..|events| - 1], table, id);
      if Names(last, table) == Some(id) {
        assert (own + [last])[..|own|] == own;
      } else {
        assert own + [] == own;
      }
    }
  }

  /** Interference freedom: events that do not name a worker, approval, tool call or
      artifact leave no trace in its entry. */
  lemma EntryIgnoresOthers(view: View, events: seq<Event>, table: Table, id: string)
    requires Fresh(view, events) && id != ""
    ensures Lookup(TableOf(Fold(view, events), table), id)
         == Lookup(TableOf(Fold(view, Naming(events, table, id)), table), id)
  {
    NamingFresh(view, events, table, id);
    NamingTwice(events, table, id);
    EntryIsOwnHistory(view, events, table, id);
    EntryIsOwnHistory(view, Naming(events, table, id), table, id);
  }

  function OutcomeKey(table: Table): string {
    if table.ToolCalls? then "status" else "state"
  }

  /** A plain field of an entry is the one the last naming event that carries it carried. */
  lemma {:induction false} LastWriteWins(entry: Option<Doc>, events: seq<Event>, table: Table, i: nat, field: string)
    requires i < |events| && field in events[i].payload && field != "type" && field != OutcomeKey(table)
    requires forall j :: i < j < |events| ==> field !in events[j].payload
    ensures Lookup(EntryFold(entry, events, table).value, field) == Some(events[i].payload[field])
  {
    if i < |events| - 1 {
      LastWriteWins(entry, events[..|events| - 1], table, i, field);
    }
  }

  /** A status or state that an event announces stays until an event says otherwise. */
  lemma {:induction false} OutcomeSticks(entry: Option<Doc>, events: seq<Event>, table: Table, i: nat)
    requires i < |events| && Truthy(Outcome(events[i], table))
    requires forall j :: i < j < |events| ==>
               !Truthy(Outcome(events[j], table)) && OutcomeKey(table) !in events[j].payload
    ensures Lookup(EntryFold(entry, events, table).value, OutcomeKey(table)) == Outcome(events[i], table)
  {
    if i < |events| - 1 {
      OutcomeSticks(entry, events[..|events| - 1], table, i);
    }
  }

  /** A failed tool call shows as failed and a denied approval as denied, whatever the
      payload says about itself. */
  lemma FailureShows(entry: Option<Doc>, events: seq<Event>)
    requires events != []
    ensures Includes(events[|events| - 1].typ, "failed") ==>
              Lookup(EntryFold(entry, events, ToolCalls).value, "status") == Some(Text("failed"))
    ensures Includes(events[|events| - 1].typ, "denied") ==>
              Lookup(EntryFold(entry, events, Approvals).value, "state") == Some(Text("denied"))
  {
    if Includes(events[|events| - 1].typ, "failed") {
      OutcomeSticks(entry, events, ToolCalls, |events| - 1);
    }
    if Includes(events[|events| - 1].typ, "denied") {
      OutcomeSticks(entry, events, Approvals, |events| - 1);
    }
  }

  /** The last switch event decides. */
  ghost predicate SwitchedOn(before: bool, events: seq<Event>, on: string, off: string) {
    || (before && forall i :: 0 <= i < |events| ==> events[i].typ != off)
    || (exists i :: 0 <= i < |events| && events[i].typ == on && forall j :: i < j < |events| ==> events[j].typ != off)
  }

  lemma SwitchNext(before: bool, events: seq<Event>, on: string, off: string)
    requires events != [] && on != off
    ensures SwitchedOn(before, events, on, off) <==>
              (events[|events| - 1].typ != off &&
               (events[|events| - 1].typ == on || SwitchedOn(before, events[..|events| - 1], on, off)))
  {
    var init, n := events[..|events| - 1], |events| - 1;
    assert forall i :: 0 <= i < n ==> init[i] == events[i];
    if exists i :: 0 <= i < n && init[i].typ == on && forall j :: i < j < n ==> init[j].typ != off {
      var i :| 0 <= i < n && init[i].typ == on && forall j :: i < j < n ==> init[j].typ != off;
      assert events[i].typ == on;
    }
    if SwitchedOn(before, events, on, off) && !before {
      var i :| 0 <= i < |events| && events[i].typ == on && forall j :: i < j < |events| ==> events[j].typ != off;
      assert i < n ==> init[i].typ == on;
    }
  }

  /** The page shows listening and speaking as the last event that concerns them says. */
  lemma {:induction false} IndicatorsFollowLastEvent(view: View, events: seq<Event>)
    requires Fresh(view, events)
    ensures Fold(view, events).listening
       <==> SwitchedOn(view.listening, events, "speech.started", "speech.stopped")
    ensures Fold(view, events).speaking
       <==> SwitchedOn(view.speaking, events, "hermes.transcript.delta", "response.completed")
  {
    if events != [] {
      NotYetSeen(view, events);
      IndicatorsFollowLastEvent(view, events[..|events| - 1]);
      SwitchNext(view.listening, events, "speech.started", "speech.stopped");
      SwitchNext(view.speaking, events, "hermes.transcript.delta", "response.completed");
    }
  }

  function Transcript(events: seq<Event>): seq<Message> {
    if events == [] then [] else Transcript(events[..|events| - 1]) + Said(events[|events| - 1])
  }

  /** The transcript grows by what was said, in event order. */
  lemma {:induction false} TranscriptInOrder(view: View, events: seq<Event>)
    requires Fresh(view, events)
    ensures Fold(view, events).messages == view.messages + Transcript(events)
  {
    if events == [] {
      assert view.messages + [] == view.messages;
    } else {
      NotYetSeen(view, events);
      TranscriptInOrder(view, events[..|events| - 1]);
      Assoc(view.messages, Transcript(events[..|events| - 1]), Said(events[|events| - 1]));
    }
  }

  // ---- Snapshots ---------------------------------------------------------------

  /** Lists may be absent and may hold values that are not objects (None). */
  datatype Snapshot = Snapshot(
    conversation: string,
    lastEventId: Option<string>,
    session: Option<Doc>,
    messages: Option<seq<Option<Doc>>>,
    transcript: Option<seq<Option<Doc>>>,
    toolCalls: Option<seq<Option<Doc>>>,
    pendingApprovals: Option<seq<Option<Doc>>>,
    approvals: Option<seq<Option<Doc>>>,
    workerJobs: Option<seq<Option<Doc>>>,
    artifacts: Option<seq<Option<Doc>>>)

  function Rows(list: Option<seq<Option<Doc>>>): seq<Option<Doc>> {
    if list.Some? then list.value else []
  }

  function RowId(row: Option<Doc>, key: string): Option<string> {
    if row.Some? then TextAt(row.value, key) else None
  }

  function IndexBy(rows: seq<Option<Doc>>, key: string): map<string, Doc> {
    if rows == [] then map[]
    else
      var index, last := IndexBy(rows[..|rows| - 1], key), rows[|rows| - 1];
      if RowId(last, key).Some? then index[RowId(last, key).value := last.value] else index
  }

  /** The index holds, for each id, the last row that carries it, and nothing else. */
  lemma {:induction false} IndexHoldsLastRow(rows: seq<Option<Doc>>, key: string, id: string)
    ensures id in IndexBy(rows, key) <==> exists i :: 0 <= i < |rows| && RowId(rows[i], key) == Some(id)
    ensures id in IndexBy(rows, key) ==>
              exists i :: 0 <= i < |rows| && RowId(rows[i], key) == Some(id)
                       && rows[i] == Some(IndexBy(rows, key)[id])
                       && forall j :: i < j < |rows| ==> RowId(rows[j], key) != Some(id)
  {
    if rows != [] {
      var init, n := rows[..|rows| - 1], |rows| - 1;
      IndexHoldsLastRow(init, key, id);
      if RowId(rows[n], key) == Some(id) {
        assert rows[n] == Some(IndexBy(rows, key)[id]);
      } else if id in IndexBy(init, key) {
        var i :| 0 <= i < n && RowId(init[i], key) == Some(id) && init[i] == Some(IndexBy(init, key)[id])
              && forall j :: i < j < n ==> RowId(init[j], key) != Some(id);
        assert rows[i] == init[i];
        assert forall j :: i < j < n ==> rows[j] == init[j];
      } else {
        assert forall i :: 0 <= i < n ==> rows[i] == init[i];
      }
    }
  }

  function MessageOf(row: Option<Doc>): seq<Message> {
    if row.None? then []
    else
      var role := TextAt(row.value, "role");
      var content := if TextAt(row.value, "content").Some? then TextAt(row.value, "content")
                     else TextAt(row.value, "text");
      if content.None? then []
      else if role == Some("user") then [Message(User, content.value, map[])]
      else if role == Some("assistant") then [Message(Assistant, content.value, map[])]
      else if role == Some("tool") then [Message(Tool, content.value, map[])]
      else []
  }

  function MessagesOf(rows: seq<Option<Doc>>): seq<Message> {
    if rows == [] then [] else MessagesOf(rows[..|rows| - 1]) + MessageOf(rows[|rows| - 1])
  }

  function RoleName(role: Role): string {
    match role
    case User => "user"
    case Assistant => "assistant"
    case Tool => "tool"
  }

  /** The row is an object with this role and this text: content, or text when content is
      not a string. */
  predicate RowSays(row: Option<Doc>, message: Message) {
    && row.Some? && TextAt(row.value, "role") == Some(RoleName(message.role)) && message.extra == map[]
    && Some(message.content) == (if TextAt(row.value, "content").Some? then TextAt(row.value, "content")
                                 else TextAt(row.value, "text"))
  }

  /** A snapshot shows exactly the messages its rows say. */
  lemma {:induction false} MessagesAreRows(rows: seq<Option<Doc>>, message: Message)
    ensures message in MessagesOf(rows) <==> exists i :: 0 <= i < |rows| && RowSays(rows[i], message)
  {
    if rows != [] {
      var init, last := rows[..|rows| - 1], rows[|rows| - 1];
      MessagesAreRows(init, message);
      RowSaysOne(last, message);
      assert forall i :: 0 <= i < |init| ==> init[i] == rows[i];
      if message in MessagesOf(init) {
        var i :| 0 <= i < |init| && RowSays(init[i], message);
        assert RowSays(rows[i], message);
      }
    }
  }

  lemma RowSaysOne(row: Option<Doc>, message: Message)
    ensures message in MessageOf(row) <==> RowSays(row, message)
  {
  }

  function ProjectSnapshot(snapshot: Snapshot): View {
    var sessionId := RowId(snapshot.session, "realtime_session_id");
    View(
      snapshot.lastEventId,
      [],
      MessagesOf(Rows(if snapshot.messages.Some? then snapshot.messages else snapshot.transcript)),
      if sessionId.Some? then map[sessionId.value := snapshot.session.value] else map[],
      IndexBy(Rows(snapshot.toolCalls), "tool_call_id"),
      IndexBy(Rows(if snapshot.pendingApprovals.Some? then snapshot.pendingApprovals else snapshot.approvals),
              "approval_id"),
      IndexBy(Rows(snapshot.workerJobs), "worker_job_id"),
      IndexBy(Rows(snapshot.artifacts), "artifact_id"),
      false,
      false)
  }

  lemma MessagesNext(rows: seq<Option<Doc>>)
    requires rows != []
    ensures MessagesOf(rows) == MessagesOf(rows[..|rows| - 1]) + MessageOf(rows[|rows| - 1])
  {
  }

  /** The messages of a snapshot come in the order of its rows. */
  lemma {:induction false} MessagesInOrder(a: seq<Option<Doc>>, b: seq<Option<Doc>>)
    ensures MessagesOf(a + b) == MessagesOf(a) + MessagesOf(b)
  {
    if b == [] {
      assert a + b == a && MessagesOf(a) + [] == MessagesOf(a);
    } else {
      var init, last := b[..|b| - 1], b[|b| - 1];
      MessagesInOrder(a, init);
      MessagesNext(b);
      MessagesNext(a + b);
      assert (a + b)[..|a + b| - 1] == a + init;
      Assoc(MessagesOf(a), MessagesOf(init), MessageOf(last));
    }
  }

  /** A row that says something is one message, and any other is none. */
  lemma RowIsMessage(row: Option<Doc>, message: Message)
    ensures RowSays(row, message) ==> MessagesOf([row]) == [message]
    ensures (forall m :: !RowSays(row, m)) ==> MessagesOf([row]) == []
  {
    assert [row][..0] == [] && MessagesOf([row]) == MessagesOf([]) + MessageOf(row);
    if MessageOf(row) != [] {
      assert RowSays(row, MessageOf(row)[0]);
    }
  }

  /** A snapshot replaces everything: its own cursor, an empty window, its messages or else its
      transcript, its session, and four tables, of which the approvals are the pending ones when
      these are given. Nobody listens or speaks. */
  lemma SnapshotReplaces(snapshot: Snapshot, id: string)
    ensures var view := ProjectSnapshot(snapshot);
            && view.cursor == snapshot.lastEventId && view.seen == [] && !view.listening && !view.speaking
            && (snapshot.messages.Some? ==> view.messages == MessagesOf(snapshot.messages.value))
            && (snapshot.messages.None? && snapshot.transcript.Some? ==>
                  view.messages == MessagesOf(snapshot.transcript.value))
            && (snapshot.messages.None? && snapshot.transcript.None? ==> view.messages == [])
            && (id in view.sessions <==>
                  snapshot.session.Some? && Lookup(snapshot.session.value, "realtime_session_id") == Some(Text(id)))
            && (id in view.sessions ==> Some(view.sessions[id]) == snapshot.session)
  {
    assert MessagesOf([]) == [];
  }

  lemma SnapshotIndexes(snapshot: Snapshot)
    ensures var view := ProjectSnapshot(snapshot);
            && (snapshot.toolCalls.Some? ==> view.toolCalls == IndexBy(snapshot.toolCalls.value, "tool_call_id"))
            && (snapshot.pendingApprovals.Some? ==>
                  view.approvals == IndexBy(snapshot.pendingApprovals.value, "approval_id"))
            && (snapshot.pendingApprovals.None? && snapshot.approvals.Some? ==>
                  view.approvals == IndexBy(snapshot.approvals.value, "approval_id"))
            && (snapshot.workerJobs.Some? ==> view.workerJobs == IndexBy(snapshot.workerJobs.value, "worker_job_id"))
            && (snapshot.artifacts.Some? ==> view.artifacts == IndexBy(snapshot.artifacts.value, "artifact_id"))
            && (snapshot.toolCalls.None? ==> view.toolCalls == map[])
            && (snapshot.pendingApprovals.None? && snapshot.approvals.None? ==> view.approvals == map[])
            && (snapshot.workerJobs.None? ==> view.workerJobs == map[])
            && (snapshot.artifacts.None? ==> view.artifacts == map[])
  {
  }
}
