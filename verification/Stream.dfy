/** The resumable event stream: what one connection sends, and what reconnecting adds up to. */
module Stream {
  import opened Records

  /** The query behind the stream: the stored events numbered above `n`, in their order. */
  function EventsAfter(log: seq<Event>, n: nat): (events: seq<Event>) {
    if log == [] then []
    else
      var e := log[|log| - 1];
      EventsAfter(log[..|log| - 1], n) + (if e.sequence > n then [e] else [])
  }

  /** Events up to and including the first terminal one. */
  function UpToTerminal(events: seq<Event>): (result: seq<Event>) {
    if events == [] then []
    else if TerminalBody(events[0].body) then [events[0]]
    else [events[0]] + UpToTerminal(events[1..])
  }

  predicate Ended(events: seq<Event>) {
    exists i :: 0 <= i < |events| && TerminalBody(events[i].body)
  }

  function LastNumber(events: seq<Event>, n: nat): (result: nat) {
    if events == [] then n else events[|events| - 1].sequence
  }

  /** What a connection opened after event `n` sends, given what each database read returns. */
  function Reads(polls: seq<seq<Event>>, n: nat): (events: seq<Event>) {
    if polls == [] then []
    else
      var pending := EventsAfter(polls[0], n);
      if Ended(pending) then UpToTerminal(pending)
      else pending + Reads(polls[1..], LastNumber(pending, n))
  }

  datatype Frame = Data(event: Event) | Heartbeat

  function DataOf(frames: seq<Frame>): (events: seq<Event>) {
    if frames == [] then []
    else
      var f := frames[|frames| - 1];
      DataOf(frames[..|frames| - 1]) + (if f.Data? then [f.event] else [])
  }

  lemma {:induction false} UpToTerminalOfPrefix(events: seq<Event>, k: nat)
    requires k < |events| && forall i :: 0 <= i < k ==> !TerminalBody(events[i].body)
    ensures UpToTerminal(events) == events[..k] + UpToTerminal(events[k..])
  {
    if k > 0 {
      var rest := events[1..];
      assert forall i :: 0 <= i < k - 1 ==> rest[i] == events[i + 1];
      UpToTerminalOfPrefix(rest, k - 1);
      CutAfterFirst(events, rest, k);
      JoinFirst(events[0], rest[..k - 1], UpToTerminal(events[k..]));
    }
  }

  lemma CutAfterFirst(events: seq<Event>, rest: seq<Event>, k: nat)
    requires 0 < k < |events| && rest == events[1..]
    ensures rest[k - 1..] == events[k..] && events[..k] == [events[0]] + rest[..k - 1]
  {}

  lemma JoinFirst(e: Event, a: seq<Event>, b: seq<Event>)
    ensures [e] + (a + b) == ([e] + a) + b
  {}

  lemma DataOfAppend(frames: seq<Frame>, f: Frame)
    ensures DataOf(frames + [f]) == DataOf(frames) + (if f.Data? then [f.event] else [])
  {
    assert (frames + [f])[..|frames|] == frames;
  }

  /** Send the pending events; true when a terminal one ended the stream. */
  method SendPending(pending: seq<Event>, sent: seq<Frame>) returns (frames: seq<Frame>, ended: bool)
    ensures ended == Ended(pending)
    ensures DataOf(frames) == DataOf(sent) + (if ended then UpToTerminal(pending) else pending)
    ensures |frames| == |sent| + |if ended then UpToTerminal(pending) else pending|
  {
    frames := sent;
    for i := 0 to |pending|
      invariant forall j :: 0 <= j < i ==> !TerminalBody(pending[j].body)
      invariant DataOf(frames) == DataOf(sent) + pending[..i]
      invariant |frames| == |sent| + i
    {
      DataOfAppend(frames, Data(pending[i]));
      frames := frames + [Data(pending[i])];
      if TerminalBody(pending[i].body) {
        UpToTerminalOfPrefix(pending, i);
        assert pending[i..][0] == pending[i];
        assert UpToTerminal(pending) == pending[..i] + [pending[i]];
        return frames, true;
      }
    }
    assert pending[..|pending|] == pending;
    return frames, false;
  }

  /** The heartbeats of a connection that has found nothing in its last `idle` reads: one at every fortieth
      read in a row that finds nothing, until a terminal event is sent. */
  function Beats(polls: seq<seq<Event>>, n: nat, idle: nat): (beats: nat) {
    if polls == [] then 0
    else
      var pending := EventsAfter(polls[0], n);
      if pending == [] then (if (idle + 1) % 40 == 0 then 1 else 0) + Beats(polls[1..], n, idle + 1)
      else if Ended(pending) then 0
      else Beats(polls[1..], LastNumber(pending, n), 0)
  }

  /** A connection that finds nothing sends one heartbeat in forty reads. */
  lemma {:induction false} QuietBeats(polls: seq<seq<Event>>, n: nat, idle: nat)
    requires forall i :: 0 <= i < |polls| ==> EventsAfter(polls[i], n) == []
    ensures Beats(polls, n, idle) == (idle + |polls|) / 40 - idle / 40
  {
    if polls != [] {
      QuietBeats(polls[1..], n, idle + 1);
      NextFortieth(idle);
    }
  }

  lemma NextFortieth(idle: nat)
    ensures (idle + 1) / 40 == idle / 40 + (if (idle + 1) % 40 == 0 then 1 else 0)
  {}

  lemma BeatsNext(polls: seq<seq<Event>>, i: nat, n: nat, idle: nat, pending: seq<Event>)
    requires i < |polls| && pending == EventsAfter(polls[i], n)
    ensures pending == [] ==>
              Beats(polls[i..], n, idle) ==
              (if (idle + 1) % 40 == 0 then 1 else 0) + Beats(polls[i + 1..], n, idle + 1)
    ensures pending != [] ==>
              Beats(polls[i..], n, idle) ==
              if Ended(pending) then 0 else Beats(polls[i + 1..], LastNumber(pending, n), 0)
  {
    assert polls[i..][0] == polls[i] && polls[i..][1..] == polls[i + 1..];
  }

  /** At most one heartbeat for every forty reads. */
  predicate BeatsFit(beats: nat, ticks: nat, idleTicks: nat) {
    40 * beats <= ticks - idleTicks % 40 && idleTicks <= ticks
  }

  lemma NextTick(beats: nat, ticks: nat, idleTicks: nat)
    requires BeatsFit(beats, ticks, idleTicks)
    ensures BeatsFit(beats, ticks + 1, 0)
    ensures BeatsFit(if (idleTicks + 1) % 40 == 0 then beats + 1 else beats, ticks + 1, idleTicks + 1)
  {}

  /** What is sent and what is still to be read add up the same before and after one read. */
  lemma ReadsNext(polls: seq<seq<Event>>, i: nat, n: nat, sent: seq<Event>, all: seq<Event>, pending: seq<Event>)
    requires i < |polls| && all == sent + Reads(polls[i..], n) && pending == EventsAfter(polls[i], n)
    ensures Ended(pending) ==> all == sent + UpToTerminal(pending)
    ensures !Ended(pending) ==> all == (sent + pending) + Reads(polls[i + 1..], LastNumber(pending, n))
    ensures pending == [] ==> !Ended(pending) && sent + pending == sent
  {
    var rest := polls[i..];
    assert rest[0] == polls[i] && rest[1..] == polls[i + 1..];
    if !Ended(pending) { Regroup(sent, pending, Reads(polls[i + 1..], LastNumber(pending, n))); }
  }

  lemma Regroup(a: seq<Event>, b: seq<Event>, c: seq<Event>)
    ensures a + (b + c) == (a + b) + c
  {}

  lemma ReadsDone(polls: seq<seq<Event>>, n: nat, sent: seq<Event>, all: seq<Event>)
    requires all == sent + Reads(polls[|polls|..], n)
    ensures all == sent
  {
    assert polls[|polls|..] == [];
  }

  /** The generator behind one connection; `polls` are the logs its successive reads find. */
  method EventStream(polls: seq<seq<Event>>, lastEventId: nat) returns (frames: seq<Frame>)
    ensures DataOf(frames) == Reads(polls, lastEventId)
    ensures |frames| == |Reads(polls, lastEventId)| + Beats(polls, lastEventId, 0)
    ensures (|frames| - |Reads(polls, lastEventId)|) * 40 <= |polls|
  {
    frames := [];
    var sequence := lastEventId;
    var idleTicks := 0;
    ghost var beats: nat := 0;
    ghost var all := Reads(polls, lastEventId);
    var i := 0;
    assert polls[0..] == polls;
    while i < |polls|
      invariant 0 <= i <= |polls|
      invariant all == DataOf(frames) + Reads(polls[i..], sequence)
      invariant |frames| == |DataOf(frames)| + beats
      invariant BeatsFit(beats, i, idleTicks)
      invariant beats + Beats(polls[i..], sequence, idleTicks) == Beats(polls, lastEventId, 0)
    {
      var pending := EventsAfter(polls[i], sequence);
      ReadsNext(polls, i, sequence, DataOf(frames), all, pending);
      NextTick(beats, i, idleTicks);
      BeatsNext(polls, i, sequence, idleTicks, pending);
      if pending != [] {
        idleTicks := 0;
        var ended;
        frames, ended := SendPending(pending, frames);
        if ended {
          return;
        }
        sequence := pending[|pending| - 1].sequence;
      } else {
        idleTicks := idleTicks + 1;
        if idleTicks % 40 == 0 {
          DataOfAppend(frames, Heartbeat);
          frames := frames + [Heartbeat];
          beats := beats + 1;
        }
      }
      i := i + 1;
    }
    ReadsDone(polls, sequence, DataOf(frames), all);
    assert polls[i..] == [];
  }

  // ---------------------------------------------------------------- one connection over a growing log

  /** Numbered 1, 2, 3, ... */
  predicate Contiguous(log: seq<Event>) {
    forall i :: 0 <= i < |log| ==> log[i].sequence == i + 1
  }

  lemma {:induction false} AfterIsSuffix(log: seq<Event>, n: nat)
    requires Contiguous(log)
    ensures EventsAfter(log, n) == if n <= |log| then log[n..] else []
  {
    if log != [] {
      var most := log[..|log| - 1];
      AfterIsSuffix(most, n);
      if n < |log| { assert log[n..] == most[n..] + [log[|log| - 1]]; }
    }
  }

  /** Each read finds the final log or an earlier state of it. */
  predicate PrefixesOf(polls: seq<seq<Event>>, log: seq<Event>) {
    forall i :: 0 <= i < |polls| ==> polls[i] <= log
  }

  lemma {:induction false} UpToTerminalIsPrefix(events: seq<Event>)
    ensures UpToTerminal(events) <= events
    ensures Ended(events) ==>
            UpToTerminal(events) != [] && TerminalBody(UpToTerminal(events)[|UpToTerminal(events)| - 1].body)
    ensures Quiet(UpToTerminal(events))
    ensures !Ended(events) ==> UpToTerminal(events) == events
  {
    if events != [] && !TerminalBody(events[0].body) {
      UpToTerminalIsPrefix(events[1..]);
      if Ended(events) {
        var i :| 0 <= i < |events| && TerminalBody(events[i].body);
        assert events[1..][i - 1] == events[i];
      }
      if Ended(events[1..]) {
        var i :| 0 <= i < |events[1..]| && TerminalBody(events[1..][i].body);
        assert events[i + 1] == events[1..][i];
      }
    }
  }

  /** Nothing terminal before the last event. */
  predicate Quiet(events: seq<Event>) {
    forall i :: 0 <= i < |events| - 1 ==> !TerminalBody(events[i].body)
  }

  /** The part of the log right after event n, as long as this, and going no further than the first
      terminal event. */
  predicate Stretch(events: seq<Event>, log: seq<Event>, n: nat) {
    n + |events| <= |log| && events == log[n..n + |events|] && Quiet(events)
  }

  lemma JoinStretches(a: seq<Event>, b: seq<Event>, log: seq<Event>, n: nat)
    requires Stretch(a, log, n) && !Ended(a) && Stretch(b, log, n + |a|)
    ensures Stretch(a + b, log, n)
  {
    assert log[n..n + |a|] + log[n + |a|..n + |a| + |b|] == log[n..n + |a + b|];
    forall i | 0 <= i < |a + b| - 1 ensures !TerminalBody((a + b)[i].body) {}
  }

  lemma PrefixIsStretch(a: seq<Event>, events: seq<Event>, log: seq<Event>, n: nat)
    requires a <= events && n + |events| <= |log| && events == log[n..n + |events|] && Quiet(a)
    ensures Stretch(a, log, n)
  {
    assert a == events[..|a|];
  }

  /** What one read of a growing log finds: the final log after event n, as far as it had got. */
  lemma ReadIsSuffix(poll: seq<Event>, log: seq<Event>, n: nat, pending: seq<Event>)
    requires Contiguous(log) && poll <= log && n <= |log| && pending == EventsAfter(poll, n)
    ensures n + |pending| <= |log| && pending == log[n..n + |pending|] && LastNumber(pending, n) == n + |pending|
  {
    AfterIsSuffix(poll, n);
    assert poll == log[..|poll|];
  }

  lemma PrefixesOfRest(polls: seq<seq<Event>>, log: seq<Event>)
    requires polls != [] && PrefixesOf(polls, log)
    ensures polls[0] <= log && PrefixesOf(polls[1..], log)
  {}

  lemma ReadsFirst(polls: seq<seq<Event>>, n: nat)
    requires polls != []
    ensures var pending := EventsAfter(polls[0], n);
            Reads(polls, n) ==
            if Ended(pending) then UpToTerminal(pending) else pending + Reads(polls[1..], LastNumber(pending, n))
  {}

  lemma FirstReadIsStretch(poll: seq<Event>, log: seq<Event>, n: nat, pending: seq<Event>, sent: seq<Event>)
    requires Contiguous(log) && poll <= log && n <= |log|
    requires pending == EventsAfter(poll, n) && sent == if Ended(pending) then UpToTerminal(pending) else pending
    ensures LastNumber(pending, n) == n + |pending| <= |log| && Stretch(sent, log, n)
  {
    ReadIsSuffix(poll, log, n, pending);
    SentIsQuiet(pending, sent);
    PrefixIsStretch(sent, pending, log, n);
  }

  lemma SentIsQuiet(pending: seq<Event>, sent: seq<Event>)
    requires sent == if Ended(pending) then UpToTerminal(pending) else pending
    ensures sent <= pending && Quiet(sent)
  {
    UpToTerminalIsPrefix(pending);
  }

  lemma NothingIsStretch(sent: seq<Event>, log: seq<Event>, n: nat)
    requires sent == [] && n <= |log|
    ensures Stretch(sent, log, n)
  {}

  lemma StretchGoesOn(sent: seq<Event>, pending: seq<Event>, rest: seq<Event>, log: seq<Event>, n: nat, next: nat)
    requires sent == pending + rest && next == n + |pending|
    requires Stretch(pending, log, n) && !Ended(pending) && Stretch(rest, log, next)
    ensures Stretch(sent, log, n)
  {
    JoinStretches(pending, rest, log, n);
  }

  /** A connection sends a stretch of the log that starts right after the event it was opened at. */
  lemma {:induction false} ConnectionSendsStretch(polls: seq<seq<Event>>, log: seq<Event>, n: nat, sent: seq<Event>)
    requires Contiguous(log) && PrefixesOf(polls, log) && n <= |log|
    requires sent == Reads(polls, n)
    ensures Stretch(sent, log, n)
    decreases |polls|
  {
    if polls == [] {
      NothingIsStretch(sent, log, n);
    } else {
      var pending := EventsAfter(polls[0], n);
      var next := LastNumber(pending, n);
      PrefixesOfRest(polls, log);
      FirstReadIsStretch(polls[0], log, n, pending, if Ended(pending) then UpToTerminal(pending) else pending);
      ReadsFirst(polls, n);
      if !Ended(pending) {
        var rest := Reads(polls[1..], next);
        ConnectionSendsStretch(polls[1..], log, next, rest);
        StretchGoesOn(sent, pending, rest, log, n, next);
      }
    }
  }

  // ---------------------------------------------------------------- reconnecting

  /** One connection: what its reads find, and how many events reach the client before it drops. */
  datatype Connection = Connection(polls: seq<seq<Event>>, taken: nat)

  function Delivered(c: Connection, n: nat): (events: seq<Event>) {
    var sent := Reads(c.polls, n);
    if c.taken < |sent| then sent[..c.taken] else sent
  }

  /** What the client receives over a series of connections. Each reconnect carries the number of
      the last event received; after a terminal event the client does not reconnect. */
  function Received(connections: seq<Connection>, n: nat): (events: seq<Event>) {
    if connections == [] then []
    else
      var got := Delivered(connections[0], n);
      if Ended(got) then got else got + Received(connections[1..], LastNumber(got, n))
  }

  lemma DeliveredIsStretch(c: Connection, log: seq<Event>, n: nat)
    requires Contiguous(log) && n <= |log| && PrefixesOf(c.polls, log)
    ensures var got := Delivered(c, n); Stretch(got, log, n) && LastNumber(got, n) == n + |got|
  {
    ConnectionSendsStretch(c.polls, log, n, Reads(c.polls, n));
    PrefixIsStretch(Delivered(c, n), Reads(c.polls, n), log, n);
  }

  lemma {:induction false} ReceivedIsStretch(connections: seq<Connection>, log: seq<Event>, n: nat, all: seq<Event>)
    requires Contiguous(log) && n <= |log|
    requires forall c :: c in connections ==> PrefixesOf(c.polls, log)
    requires all == Received(connections, n)
    ensures Stretch(all, log, n)
    decreases |connections|
  {
    if connections == [] {
      NothingIsStretch(all, log, n);
    } else {
      var got := Delivered(connections[0], n);
      var next := LastNumber(got, n);
      DeliveredIsStretch(connections[0], log, n);
      if !Ended(got) {
        var rest := Received(connections[1..], next);
        ReceivedIsStretch(connections[1..], log, next, rest);
        StretchGoesOn(all, got, rest, log, n, next);
      }
    }
  }

  /** Exactly-once resume: over any series of reconnects the client receives the log from its first
      event on, without gap or repeat; once it has a terminal event it has exactly the log up to it. */
  lemma ReconnectsAddUp(connections: seq<Connection>, log: seq<Event>)
    requires Contiguous(log)
    requires forall c :: c in connections ==> PrefixesOf(c.polls, log)
    ensures var got := Received(connections, 0);
            && got <= UpToTerminal(log) && Contiguous(got)
            && (Ended(got) ==> got == UpToTerminal(log))
  {
    var got := Received(connections, 0);
    ReceivedIsStretch(connections, log, 0, got);
    UpToTerminalIsPrefix(log);
    StretchIsWithin(got, UpToTerminal(log), log);
  }

  lemma StretchIsWithin(got: seq<Event>, full: seq<Event>, log: seq<Event>)
    requires Stretch(got, log, 0) && Contiguous(log)
    requires full <= log && Quiet(full)
    requires full == log || (full != [] && TerminalBody(full[|full| - 1].body))
    ensures got <= full && Contiguous(got) && (Ended(got) ==> got == full)
  {
    var k := |full| - 1;
    if 0 <= k < |got| { assert got[k] == log[k] && full[k] == log[k]; }
    if Ended(got) {
      var i :| 0 <= i < |got| && TerminalBody(got[i].body);
      if i < |full| { assert full[i] == log[i]; }
    }
  }
}
