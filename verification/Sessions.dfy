/** Throttled refresh of authenticated sessions against the per-request idle timeout it stands for.

    Times are whole microseconds. The account stays active and keeps its roles; the idle length of
    its roles is a parameter. */
module Sessions {
  import opened Records

  type Duration = nat

  const REFRESH_EVERY: Duration := 5 * 60 * SECOND

  datatype Lengths = Lengths(idle: Duration, absolute: Duration)

  /** The stored expiry fields of a session. */
  datatype Row = Row(lastSeen: int, idleExpires: int, absoluteExpires: int, revoked: bool)

  function NewRow(n: Lengths, now: int): (after: Row) {
    Row(now, now + n.idle, now + n.absolute, false)
  }

  predicate Accepts(row: Row, now: int) {
    !row.revoked && now < row.idleExpires && now < row.absoluteExpires
  }

  /** An accepted request moves the expiry only when the last refresh is five minutes old. */
  function Touched(n: Lengths, row: Row, now: int): (after: Row) {
    if Accepts(row, now) && now - row.lastSeen >= REFRESH_EVERY
    then row.(lastSeen := now, idleExpires := Min(now + n.idle, row.absoluteExpires))
    else row
  }

  // ---------------------------------------------------------------- the stored session

  class AuthSession {
    var lastSeenAt: int
    var idleExpiresAt: int
    var absoluteExpiresAt: int
    var revoked: bool

    function Fields(): (after: Row)
      reads this
    {
      Row(lastSeenAt, idleExpiresAt, absoluteExpiresAt, revoked)
    }

    constructor (n: Lengths, now: int)
      ensures Fields() == NewRow(n, now)
    {
      lastSeenAt := now;
      idleExpiresAt := now + n.idle;
      absoluteExpiresAt := now + n.absolute;
      revoked := false;
    }

    method Authenticate(n: Lengths, now: int) returns (accepted: bool)
      modifies this
      ensures accepted == Accepts(old(Fields()), now)
      ensures Fields() == Touched(n, old(Fields()), now)
    {
      if revoked || idleExpiresAt <= now || absoluteExpiresAt <= now {
        return false;
      }
      if now - lastSeenAt >= REFRESH_EVERY {
        lastSeenAt := now;
        idleExpiresAt := if now + n.idle < absoluteExpiresAt then now + n.idle else absoluteExpiresAt;
      }
      return true;
    }

    method Revoke()
      modifies this
      ensures Fields() == old(Fields()).(revoked := true)
    {
      revoked := true;
    }
  }

  /** A stored session after further requests. */
  function Onwards(n: Lengths, row: Row, times: seq<int>): (after: Row) {
    if times == [] then row else Touched(n, Onwards(n, row, times[..|times| - 1]), times[|times| - 1])
  }

  /** A revoked session accepts no request at any later time, and none of them revives it. */
  lemma {:induction false} RevokedIsFinal(n: Lengths, row: Row, times: seq<int>, now: int)
    requires row.revoked
    ensures Onwards(n, row, times) == row && !Accepts(Onwards(n, row, times), now)
  {
    if times != [] { RevokedIsFinal(n, row, times[..|times| - 1], now); }
  }

  // ---------------------------------------------------------------- request histories

  predicate Nondecreasing(start: int, times: seq<int>) {
    && (forall i :: 0 <= i < |times| ==> start <= times[i])
    && (forall i, j :: 0 <= i < j < |times| ==> times[i] <= times[j])
  }

  /** The session after requests at these times. */
  function After(n: Lengths, start: int, times: seq<int>): (after: Row) {
    if times == [] then NewRow(n, start)
    else Touched(n, After(n, start, times[..|times| - 1]), times[|times| - 1])
  }

  /** The time of the last accepted request, or of the login. */
  function LastAccepted(n: Lengths, start: int, times: seq<int>): (result: int) {
    if times == [] then start
    else if Accepts(After(n, start, times[..|times| - 1]), times[|times| - 1]) then times[|times| - 1]
    else LastAccepted(n, start, times[..|times| - 1])
  }

  /** The ideal policy: every accepted request restarts the idle clock. */
  datatype Ideal = Ideal(seen: int, absoluteExpires: int)

  predicate IdealAccepts(n: Lengths, ideal: Ideal, now: int) {
    now < ideal.seen + n.idle && now < ideal.absoluteExpires
  }

  function IdealAfter(n: Lengths, start: int, times: seq<int>): (result: Ideal) {
    if times == [] then Ideal(start, start + n.absolute)
    else
      var before := IdealAfter(n, start, times[..|times| - 1]);
      var now := times[|times| - 1];
      if IdealAccepts(n, before, now) then before.(seen := now) else before
  }

  /** The stored row lags the last accepted request by less than five minutes, and the ideal policy has
      seen at least as recent a request. */
  predicate Lags(n: Lengths, row: Row, last: int, ideal: Ideal) {
    && !row.revoked && row.absoluteExpires == ideal.absoluteExpires
    && row.lastSeen <= last <= ideal.seen && last - row.lastSeen < REFRESH_EVERY
    && (row.idleExpires == row.lastSeen + n.idle
        || (row.idleExpires == row.absoluteExpires && row.absoluteExpires <= row.lastSeen + n.idle))
  }

  lemma LagsNext(n: Lengths, row: Row, last: int, ideal: Ideal, now: int)
    requires Lags(n, row, last, ideal) && ideal.seen <= now
    ensures Accepts(row, now) ==> IdealAccepts(n, ideal, now)
    ensures Lags(n, Touched(n, row, now), if Accepts(row, now) then now else last,
                 if IdealAccepts(n, ideal, now) then ideal.(seen := now) else ideal)
  {}

  lemma {:induction false} LagsAlways(n: Lengths, start: int, times: seq<int>)
    requires Nondecreasing(start, times)
    ensures Lags(n, After(n, start, times), LastAccepted(n, start, times), IdealAfter(n, start, times))
    ensures IdealAfter(n, start, times).seen <= (if times == [] then start else times[|times| - 1])
  {
    if times != [] {
      var most := times[..|times| - 1];
      assert most != [] ==> most[|most| - 1] == times[|times| - 2];
      LagsAlways(n, start, most);
      LagsNext(n, After(n, start, most), LastAccepted(n, start, most), IdealAfter(n, start, most), times[|times| - 1]);
    }
  }

  /** Every request the throttled session accepts is one the ideal policy accepts. */
  lemma RefinesIdeal(n: Lengths, start: int, times: seq<int>, now: int)
    requires Nondecreasing(start, times + [now])
    ensures Accepts(After(n, start, times), now) ==> IdealAccepts(n, IdealAfter(n, start, times), now)
  {
    Earlier(start, times, now);
    LagsAlways(n, start, times);
    LagsNext(n, After(n, start, times), LastAccepted(n, start, times), IdealAfter(n, start, times), now);
  }

  lemma Earlier(start: int, times: seq<int>, now: int)
    requires Nondecreasing(start, times + [now])
    ensures Nondecreasing(start, times) && start <= now
    ensures times != [] ==> times[|times| - 1] <= now
  {
    var all := times + [now];
    assert forall i :: 0 <= i < |times| ==> all[i] == times[i];
    assert all[|times|] == now;
  }

  /** A request no later than idle minus five minutes after the last accepted one, before the absolute
      end, is accepted. */
  lemma WithinGapIsAccepted(n: Lengths, start: int, times: seq<int>, now: int)
    requires Nondecreasing(start, times + [now])
    requires now - LastAccepted(n, start, times) <= n.idle - REFRESH_EVERY && now < start + n.absolute
    ensures Accepts(After(n, start, times), now)
  {
    Earlier(start, times, now);
    LagsAlways(n, start, times);
    IdealAbsolute(n, start, times);
  }

  lemma {:induction false} IdealAbsolute(n: Lengths, start: int, times: seq<int>)
    ensures IdealAfter(n, start, times).absoluteExpires == start + n.absolute
  {
    if times != [] { IdealAbsolute(n, start, times[..|times| - 1]); }
  }

  /** No accepted request comes an idle length or more after the last one, or after the absolute end. */
  lemma BeyondIdleIsRefused(n: Lengths, start: int, times: seq<int>, now: int)
    requires Nondecreasing(start, times + [now])
    requires now - LastAccepted(n, start, times) >= n.idle || now >= start + n.absolute
    ensures !Accepts(After(n, start, times), now)
  {
    Earlier(start, times, now);
    LagsAlways(n, start, times);
    IdealAbsolute(n, start, times);
  }

  /** The five minutes are exact: with one microsecond less to spare a request can be refused that the
      ideal policy accepts. */
  lemma GapIsTight(n: Lengths, start: int)
    requires REFRESH_EVERY < n.idle && 2 * n.idle < n.absolute
    ensures var last := start + REFRESH_EVERY - 1;
            var now := start + n.idle;
            && Nondecreasing(start, [last, now])
            && now - LastAccepted(n, start, [last]) == n.idle - REFRESH_EVERY + 1
            && !Accepts(After(n, start, [last]), now) && IdealAccepts(n, IdealAfter(n, start, [last]), now)
  {
    var last := start + REFRESH_EVERY - 1;
    assert [last][..0] == [];
    assert After(n, start, [last]) == Touched(n, NewRow(n, start), last);
  }

  /** No refresh sets the idle end past the absolute end, which stays where the login put it. */
  lemma {:induction false} AbsoluteStands(n: Lengths, start: int, times: seq<int>)
    ensures After(n, start, times).absoluteExpires == start + n.absolute
    ensures After(n, start, times) == NewRow(n, start) || After(n, start, times).idleExpires <= start + n.absolute
  {
    if times != [] { AbsoluteStands(n, start, times[..|times| - 1]); }
  }
}
