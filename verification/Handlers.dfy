/** The handlers of one run in a row: a model request that is retried starts a new handler, which does not
    know what the one before has announced. */
module Handlers {
  import opened Records
  import opened Emitter

  /** The activity a part event sets, if any. */
  function SetBy(e: PartEvent): (a: Option<Activity>) {
    match e
    case ThinkingProgress => Some(THINKING)
    case OutputStart(_, _) => Some(COMPOSING)
    case ToolCalled(tool) => Some(Activity("tool", ToolLabel(tool), Some(tool)))
    case ToolReturned(tool) => Some(Activity("thinking", "Reviewing", Some(tool)))
    case _ => None
  }

  /** The first activity the events set other than the initial one. */
  function FirstSet(events: seq<PartEvent>): (a: Option<Activity>) {
    if events == [] then None
    else
      var before := FirstSet(events[..|events| - 1]);
      if before.Some? then before
      else if SetBy(events[|events| - 1]) == Some(THINKING) then None
      else SetBy(events[|events| - 1])
  }

  /** The last activity the events set, or the initial one. */
  function LastSet(events: seq<PartEvent>): (a: Activity) {
    if events == [] then THINKING
    else if SetBy(events[|events| - 1]).Some? then SetBy(events[|events| - 1]).value
    else LastSet(events[..|events| - 1])
  }

  function AnnouncedBy(events: seq<PartEvent>): (bodies: seq<Body>) {
    Announcements(ReactAll(INITIAL, events).sent)
  }

  // ---------------------------------------------------------------- one handler

  lemma SetIsKnown(e: PartEvent)
    ensures SetBy(e).Some? ==> Known(SetBy(e).value)
  {}

  lemma AnnouncesOne(v: View, a: Activity, after: View)
    requires after == Announce(v, a)
    ensures Announcements(after.sent) == Announcements(v.sent) + (if a == v.lastActivity then [] else [Announcement(a)])
    ensures after.lastActivity == a
  {
    AnnouncementsAppend(v.sent, Announcement(a));
  }

  lemma ShowingAnnouncesNone(v: View, answer: Text, final: bool, after: View)
    requires after == Show(v, answer, final)
    ensures Announcements(after.sent) == Announcements(v.sent) && after.lastActivity == v.lastActivity
  {
    var snapshot := if final then answer else RevealableWords(answer);
    var before := v.sent + (if v.started then [] else [AnswerStarted]);
    if v.started { assert before == v.sent; }
    AnnouncementsAppend(v.sent, AnswerStarted);
    AnnouncementsAppend(before, AnswerSnapshot(snapshot));
  }

  lemma LoggingAnnouncesNone(v: View, b: Body, after: View)
    requires !b.StatusChanged? && after == v.(sent := v.sent + [b])
    ensures Announcements(after.sent) == Announcements(v.sent)
  {
    AnnouncementsAppend(v.sent, b);
  }

  /** A part event announces what it sets, unless that was set last. */
  lemma ReactAnnounces(v: View, e: PartEvent, after: View)
    requires after == React(v, e)
    ensures Announcements(after.sent) ==
            Announcements(v.sent) +
            (if SetBy(e).Some? && SetBy(e).value != v.lastActivity then [Announcement(SetBy(e).value)] else [])
    ensures after.lastActivity == if SetBy(e).Some? then SetBy(e).value else v.lastActivity
  {
    match e
    case ThinkingProgress => AnnouncesOne(v, THINKING, after);
    case OutputStart(_, answer) =>
      var w := Announce(v.(hasPart := true), COMPOSING);
      AnnouncesOne(v.(hasPart := true), COMPOSING, w);
      ShowingAnnouncesNone(w, answer, false, Show(w, answer, false));
    case OutputDelta(_, answer) => ShowingAnnouncesNone(v, answer, false, Show(v, answer, false));
    case OutputEnd(_, answer) =>
      var w := v.(hasPart := true);
      ShowingAnnouncesNone(w, answer, true, Show(w, answer, true));
    case ToolCalled(tool) =>
      var w := v.(sent := v.sent + [ToolActivity("started", tool, ToolLabel(tool))]);
      LoggingAnnouncesNone(v, ToolActivity("started", tool, ToolLabel(tool)), w);
      AnnouncesOne(w, Activity("tool", ToolLabel(tool), Some(tool)), after);
    case ToolReturned(tool) =>
      var w := v.(sent := v.sent + [ToolActivity("completed", tool, "Reviewing")]);
      LoggingAnnouncesNone(v, ToolActivity("completed", tool, "Reviewing"), w);
      AnnouncesOne(w, Activity("thinking", "Reviewing", Some(tool)), after);
    case OtherPart =>
  }

  /** What one handler announces begins with the first activity it sets other than Thinking. */
  predicate BeginsAsSet(announced: seq<Body>, first: Option<Activity>, last: Activity) {
    && (announced == [] <==> first.None?)
    && (first.Some? ==> announced[0] == Announcement(first.value) && Known(first.value))
    && (first.None? ==> last == THINKING) && Known(last)
  }

  lemma {:induction false} HandlerAnnounces(events: seq<PartEvent>)
    ensures BeginsAsSet(AnnouncedBy(events), FirstSet(events), LastSet(events))
    ensures ReactAll(INITIAL, events).lastActivity == LastSet(events)
  {
    if events != [] {
      var most, e := events[..|events| - 1], events[|events| - 1];
      HandlerAnnounces(most);
      SetIsKnown(e);
      ReactAnnounces(ReactAll(INITIAL, most), e, ReactAll(INITIAL, events));
    }
  }

  // ---------------------------------------------------------------- handlers in a row

  /** The announcements of a run: the one made before the first request, and those of its handlers. */
  function RunTrail(handlers: seq<seq<PartEvent>>): (bodies: seq<Body>) {
    if handlers == [] then [Announcement(THINKING)]
    else RunTrail(handlers[..|handlers| - 1]) + AnnouncedBy(handlers[|handlers| - 1])
  }

  /** The activity a run has announced last. */
  function RunLast(handlers: seq<seq<PartEvent>>): (a: Activity) {
    if handlers == [] then THINKING
    else if FirstSet(handlers[|handlers| - 1]).Some? then LastSet(handlers[|handlers| - 1])
    else RunLast(handlers[..|handlers| - 1])
  }

  /** The handler's first activity is what the run has announced last. */
  predicate RepeatsLast(handlers: seq<seq<PartEvent>>, k: nat)
    requires k < |handlers|
  {
    FirstSet(handlers[k]) == Some(RunLast(handlers[..k]))
  }

  lemma JoinRepeats(a: seq<Body>, b: seq<Body>)
    requires a != []
    ensures NoRepeats(a + b) <==> NoRepeats(a) && NoRepeats(b) && (b == [] || a[|a| - 1] != b[0])
  {
    var all := a + b;
    if NoRepeats(all) {
      forall i | 1 <= i < |a| ensures a[i] != a[i - 1] { assert all[i] != all[i - 1]; }
      forall i | 1 <= i < |b| ensures b[i] != b[i - 1] { assert all[|a| + i] != all[|a| + i - 1]; }
      if b != [] { assert all[|a|] != all[|a| - 1]; }
    }
  }

  lemma OneHandlerRepeatsNone(events: seq<PartEvent>)
    ensures NoRepeats(AnnouncedBy(events))
    ensures AnnouncedBy(events) != [] ==>
            AnnouncedBy(events)[|AnnouncedBy(events)| - 1] == Announcement(ReactAll(INITIAL, events).lastActivity)
  {
    NoActivityTwiceRunning(events);
    JoinRepeats([Announcement(THINKING)], AnnouncedBy(events));
  }

  lemma SameAnnouncement(a: Activity, b: Activity)
    requires Known(a) && Known(b)
    ensures Announcement(a) == Announcement(b) <==> a == b
  {
    if Announcement(a) == Announcement(b) { AnnouncementsDiffer(a, b); }
  }

  lemma {:induction false} TrailEnds(handlers: seq<seq<PartEvent>>)
    ensures var t := RunTrail(handlers);
            t != [] && Known(RunLast(handlers)) && t[|t| - 1] == Announcement(RunLast(handlers))
  {
    if handlers != [] {
      TrailEnds(handlers[..|handlers| - 1]);
      HandlerAnnounces(handlers[|handlers| - 1]);
      OneHandlerRepeatsNone(handlers[|handlers| - 1]);
    }
  }

  lemma LastHandlerRepeats(most: seq<seq<PartEvent>>, h: seq<PartEvent>, handlers: seq<seq<PartEvent>>)
    requires handlers == most + [h]
    ensures NoRepeats(RunTrail(handlers)) <==> NoRepeats(RunTrail(most)) && FirstSet(h) != Some(RunLast(most))
  {
    assert handlers[..|handlers| - 1] == most;
    TrailEnds(most);
    HandlerAnnounces(h);
    OneHandlerRepeatsNone(h);
    JoinRepeats(RunTrail(most), AnnouncedBy(h));
    if FirstSet(h).Some? { SameAnnouncement(FirstSet(h).value, RunLast(most)); }
  }

  predicate NoneRepeatsLast(handlers: seq<seq<PartEvent>>) {
    forall k :: 0 <= k < |handlers| ==> !RepeatsLast(handlers, k)
  }

  lemma NoneButTheLast(most: seq<seq<PartEvent>>, h: seq<PartEvent>, handlers: seq<seq<PartEvent>>)
    requires handlers == most + [h]
    ensures NoneRepeatsLast(handlers) <==> NoneRepeatsLast(most) && FirstSet(h) != Some(RunLast(most))
  {
    forall k | 0 <= k < |most| ensures RepeatsLast(most, k) == RepeatsLast(handlers, k) {
      assert most[..k] == handlers[..k] && most[k] == handlers[k];
    }
    assert handlers[..|most|] == most && handlers[|most|] == h;
    assert RepeatsLast(handlers, |most|) <==> FirstSet(h) == Some(RunLast(most));
  }

  /** Over any number of handlers in a row, a run announces an activity twice running exactly when the first
      activity that a handler sets, other than Thinking, is the one announced last before it. */
  lemma {:induction false} RepeatsExactly(handlers: seq<seq<PartEvent>>)
    ensures NoRepeats(RunTrail(handlers)) <==> NoneRepeatsLast(handlers)
  {
    if handlers != [] {
      var most, h := handlers[..|handlers| - 1], handlers[|handlers| - 1];
      assert most + [h] == handlers;
      RepeatsExactly(most);
      LastHandlerRepeats(most, h, handlers);
      NoneButTheLast(most, h, handlers);
    }
  }

  /** A request retried after its output call has begun announces Composing twice. */
  lemma RetriedRequestRepeats(action: string, answer: Text)
    ensures var handler := [OutputStart(action, answer)];
            RepeatsLast([handler, handler], 1) && !NoRepeats(RunTrail([handler, handler]))
  {
    var handler := [OutputStart(action, answer)];
    var both := [handler, handler];
    assert handler[..0] == [] && both[..1] == [handler] && both[..1][..0] == [];
    assert FirstSet(handler) == Some(COMPOSING) && LastSet(handler) == COMPOSING;
    assert RepeatsLast(both, 1);
    RepeatsExactly(both);
  }
}
