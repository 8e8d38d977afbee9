/** The browser's side of one run: the events it hears and the user's stop. */
module Screen {
  import opened Records
  import opened Stream
  import opened Client
  import opened Replay

  /** The conversation, and the run's context: whether a stop was requested, and whether it is still
      the active run. */
  datatype Watching = Watching(chat: Chat, cancelRequested: bool, active: bool)

  datatype Input = Arrives(event: Event) | Stops(at: Time)

  /** What `finalizeCancelledConversation` makes of a conversation. */
  function Finalized(c: Chat, id: MessageId, at: Time): (after: Chat) {
    Reduce(c, id, Event(0, RunCancelled([]), at))
  }

  /** A stop takes effect on the active run only, and once it has, only a cancellation is heard. */
  function Heed(id: MessageId, v: Watching, x: Input): (after: Watching) {
    match x
    case Stops(at) => if v.active then Watching(Finalized(v.chat, id, at), true, false) else v
    case Arrives(e) =>
      if v.cancelRequested && !e.body.RunCancelled? then v
      else Watching(Reduce(v.chat, id, e), v.cancelRequested, v.active && !TerminalBody(e.body))
  }

  function Watch(id: MessageId, v: Watching, inputs: seq<Input>): (after: Watching) {
    if inputs == [] then v else Heed(id, Watch(id, v, inputs[..|inputs| - 1]), inputs[|inputs| - 1])
  }

  lemma ReduceKeepsOne(c: Chat, id: MessageId, e: Event)
    requires AtMostOne(c.messages, id)
    ensures AtMostOne(Reduce(c, id, e).messages, id)
  {
    assert Fold(c, id, [e]) == Reduce(Fold(c, id, []), id, e);
    FoldParts(c, id, [e]);
  }

  /** The context object of a run in the browser, with the conversation it updates. */
  class ActiveRun {
    const messageId: MessageId
    var chat: Chat
    var cancelRequested: bool
    var active: bool

    ghost predicate Valid()
      reads this
    {
      AtMostOne(chat.messages, messageId)
    }

    function Now(): (v: Watching)
      reads this
    {
      Watching(chat, cancelRequested, active)
    }

    constructor (chat: Chat, messageId: MessageId)
      requires AtMostOne(chat.messages, messageId)
      ensures Valid() && this.messageId == messageId && Now() == Watching(chat, false, true)
    {
      this.chat, this.messageId := chat, messageId;
      cancelRequested, active := false, true;
    }

    method Receive(event: Event)
      requires Valid()
      modifies this
      ensures Valid() && Now() == Heed(messageId, old(Now()), Arrives(event))
    {
      ReduceKeepsOne(chat, messageId, event);
      chat := UpdateFromEvent(chat, messageId, cancelRequested, event);
      if TerminalBody(event.body) && !(cancelRequested && !event.body.RunCancelled?) {
        active := false;
      }
    }

    method Stop(now: Time)
      requires Valid()
      modifies this
      ensures Valid() && Now() == Heed(messageId, old(Now()), Stops(now))
    {
      if !active {
        return;
      }
      cancelRequested := true;
      ReduceKeepsOne(chat, messageId, Event(0, RunCancelled([]), now));
      chat := FinalizeCancelled(chat, messageId, now);
      active := false;
    }
  }

  // ---------------------------------------------------------------- what a series of inputs leaves

  function Arrived(inputs: seq<Input>): (events: seq<Event>) {
    if inputs == [] then []
    else
      var x := inputs[|inputs| - 1];
      Arrived(inputs[..|inputs| - 1]) + (if x.Arrives? then [x.event] else [])
  }

  /** The user stopped while no terminal event had arrived. */
  predicate Stopped(inputs: seq<Input>) {
    inputs != [] &&
    (|| Stopped(inputs[..|inputs| - 1])
     || (inputs[|inputs| - 1].Stops? && !Ended(Arrived(inputs[..|inputs| - 1]))))
  }

  /** What had arrived when the stop took effect, or all that has arrived. */
  function Seen(inputs: seq<Input>): (events: seq<Event>) {
    if inputs == [] then []
    else if Stopped(inputs[..|inputs| - 1]) then Seen(inputs[..|inputs| - 1])
    else Arrived(inputs)
  }

  lemma {:induction false} SeenBegins(inputs: seq<Input>)
    ensures Seen(inputs) <= Arrived(inputs)
    ensures Stopped(inputs) ==> !Ended(Seen(inputs))
    ensures !Stopped(inputs) ==> Seen(inputs) == Arrived(inputs)
  {
    if inputs != [] { SeenBegins(inputs[..|inputs| - 1]); }
  }

  lemma EndedLast(events: seq<Event>, e: Event)
    ensures Ended(events + [e]) <==> Ended(events) || TerminalBody(e.body)
  {
    forall i | 0 <= i < |events| ensures (events + [e])[i] == events[i] {}
    assert (events + [e])[|events|] == e;
  }

  /** What a stop keeps of the response. */
  function KeptOf(x: Option<ChatMessage>): (text: Option<Text>) {
    if x.None? || ClientBlank(x.value.content) then None else Some(x.value.content)
  }

  function TextOf(x: Option<ChatMessage>): (text: Option<Text>) {
    if x.None? then None else Some(x.value.content)
  }

  predicate Follows(id: MessageId, c: Chat, inputs: seq<Input>, v: Watching) {
    && AtMostOne(v.chat.messages, id) && v.cancelRequested == Stopped(inputs)
    && v.active == (!Stopped(inputs) && !Ended(Arrived(inputs)))
    && (if Stopped(inputs)
        then TextOf(Response(v.chat.messages, id)) == KeptOf(Response(Fold(c, id, Seen(inputs)).messages, id))
             && (Response(v.chat.messages, id).Some? ==> Response(v.chat.messages, id).value.state == Complete)
        else v.chat == Fold(c, id, Seen(inputs)))
  }

  lemma FinalizedResponse(c: Chat, id: MessageId, e: Event)
    requires AtMostOne(c.messages, id) && e.body.RunCancelled?
    ensures AtMostOne(Reduce(c, id, e).messages, id)
    ensures TextOf(Response(Reduce(c, id, e).messages, id)) == KeptOf(Response(c.messages, id))
    ensures Response(Reduce(c, id, e).messages, id).Some? ==>
            Response(Reduce(c, id, e).messages, id).value.state == Complete
  {
    assert Fold(c, id, [e]) == Reduce(Fold(c, id, []), id, e);
    FoldParts(c, id, [e]);
    assert EffectAll(Response(c.messages, id), id, [e]) == Effect(EffectAll(Response(c.messages, id), id, []), id, e);
  }

  lemma LastInput(most: seq<Input>, x: Input, inputs: seq<Input>)
    requires inputs == most + [x]
    ensures Arrived(inputs) == if x.Arrives? then Arrived(most) + [x.event] else Arrived(most)
    ensures Stopped(inputs) <==> Stopped(most) || (x.Stops? && !Ended(Arrived(most)))
    ensures Seen(inputs) == if Stopped(most) then Seen(most) else Arrived(inputs)
  {
    assert inputs[..|inputs| - 1] == most;
    assert Arrived(most) + [] == Arrived(most);
  }

  lemma StopFollows(id: MessageId, c: Chat, most: seq<Input>, at: Time, inputs: seq<Input>, v: Watching,
                    after: Watching)
    requires inputs == most + [Stops(at)] && Follows(id, c, most, v) && after == Heed(id, v, Stops(at))
    ensures Follows(id, c, inputs, after)
  {
    LastInput(most, Stops(at), inputs);
    SeenBegins(most);
    if v.active { FinalizedResponse(v.chat, id, Event(0, RunCancelled([]), at)); }
  }

  lemma ArrivalFollows(id: MessageId, c: Chat, most: seq<Input>, e: Event, inputs: seq<Input>, v: Watching,
                       after: Watching)
    requires inputs == most + [Arrives(e)] && Follows(id, c, most, v) && after == Heed(id, v, Arrives(e))
    ensures Follows(id, c, inputs, after)
  {
    LastInput(most, Arrives(e), inputs);
    SeenBegins(most);
    EndedLast(Arrived(most), e);
    if v.cancelRequested {
      if e.body.RunCancelled? { FinalizedResponse(v.chat, id, e); }
    } else {
      ReduceKeepsOne(v.chat, id, e);
      FoldLast(c, id, Arrived(most), e);
    }
  }

  lemma FoldLast(c: Chat, id: MessageId, events: seq<Event>, e: Event)
    ensures Fold(c, id, events + [e]) == Reduce(Fold(c, id, events), id, e)
  {
    assert (events + [e])[..|events|] == events;
  }

  /** Whatever order events and stops come in, the screen shows the fold of what was seen; a stop before
      the end keeps of it what is not blank, and nothing that comes later changes that. */
  lemma {:induction false} WatchShowsSeen(id: MessageId, c: Chat, inputs: seq<Input>, v: Watching)
    requires AtMostOne(c.messages, id) && v == Watch(id, Watching(c, false, true), inputs)
    ensures Follows(id, c, inputs, v)
  {
    if inputs != [] {
      var most := inputs[..|inputs| - 1];
      var before := Watch(id, Watching(c, false, true), most);
      WatchShowsSeen(id, c, most, before);
      assert inputs == most + [inputs[|inputs| - 1]];
      match inputs[|inputs| - 1]
      case Stops(at) => StopFollows(id, c, most, at, inputs, before, v);
      case Arrives(e) => ArrivalFollows(id, c, most, e, inputs, before, v);
    }
  }
}
