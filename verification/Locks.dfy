/** The rows that transactions lock by name: the order in which they take them, and why that order alone
    cannot deadlock. Locks that the database takes by itself, such as the share lock of a foreign key,
    have no place in this order. */
module Locks {
  import opened Records

  /** A row that a transaction locks by name. */
  datatype Row =
    | RunRow(run: RunId)
    | ConversationRow(conversation: ConversationId)
    | ControlRow(message: MessageId)
    | AccountRow(user: UserId)
    | LedgerRow(of: RunId)
    | CounterRow(key: CounterKey)

  function Rank(row: Row): (n: nat) {
    match row
    case RunRow(_) => 0
    case ConversationRow(_) => 1
    case ControlRow(_) => 2
    case AccountRow(_) => 3
    case LedgerRow(_) => 4
    case CounterRow(k) => if k.DeviceKey? then 5 else if k.IpKey? then 6 else 7
  }

  /** Each lock ranks above the one taken before it. */
  predicate Ascending(rows: seq<Row>) {
    forall i, j :: 0 <= i < j < |rows| ==> Rank(rows[i]) < Rank(rows[j])
  }

  // ---------------------------------------------------------------- the lock manager

  type TxId = nat

  /** Who holds each row, and the rows each running transaction still has to lock, in order. */
  datatype Table = Table(holder: map<Row, TxId>, ahead: map<TxId, seq<Row>>)

  datatype Move =
    | Start(tx: TxId, program: seq<Row>)
    | TryFirst(tx: TxId, row: Row)       // `skip locked`: take the row if it is free, else take nothing
    | Take(tx: TxId)
    | Finish(tx: TxId)

  predicate Waits(t: Table, a: TxId, b: TxId) {
    a in t.ahead && t.ahead[a] != [] && t.ahead[a][0] in t.holder && t.holder[t.ahead[a][0]] == b && b != a
  }

  predicate Waiting(t: Table, a: TxId) {
    a in t.ahead && t.ahead[a] != [] && t.ahead[a][0] in t.holder && t.holder[t.ahead[a][0]] != a
  }

  function Moved(t: Table, m: Move): (after: Table) {
    match m
    case Start(tx, program) => if tx in t.ahead then t else t.(ahead := t.ahead[tx := program])
    case TryFirst(tx, row) =>
      if tx in t.ahead then t
      else if row in t.holder then t.(ahead := t.ahead[tx := []])
      else Table(t.holder[row := tx], t.ahead[tx := []])
    case Take(tx) =>
      if tx !in t.ahead || t.ahead[tx] == [] || Waiting(t, tx) then t
      else Table(t.holder[t.ahead[tx][0] := tx], t.ahead[tx := t.ahead[tx][1..]])
    case Finish(tx) =>
      if tx !in t.ahead || t.ahead[tx] != [] then t
      else Table(t.holder - (set row | row in t.holder && t.holder[row] == tx), t.ahead - {tx})
  }

  function After(moves: seq<Move>): (after: Table) {
    if moves == [] then Table(map[], map[]) else Moved(After(moves[..|moves| - 1]), moves[|moves| - 1])
  }

  predicate Disciplined(moves: seq<Move>) {
    forall i :: 0 <= i < |moves| && moves[i].Start? ==> Ascending(moves[i].program)
  }

  /** Whatever a transaction holds ranks below everything it has still to lock. */
  predicate HoldsBelow(t: Table) {
    && (forall tx :: tx in t.ahead ==> Ascending(t.ahead[tx]))
    && (forall row :: row in t.holder ==> t.holder[row] in t.ahead)
    && (forall row, i :: row in t.holder && 0 <= i < |t.ahead[t.holder[row]]| ==>
        Rank(row) < Rank(t.ahead[t.holder[row]][i]))
  }

  lemma MoveKeepsOrder(t: Table, m: Move)
    requires HoldsBelow(t) && (m.Start? ==> Ascending(m.program))
    ensures HoldsBelow(Moved(t, m))
  {}

  lemma {:induction false} OrderAlways(moves: seq<Move>)
    requires Disciplined(moves)
    ensures HoldsBelow(After(moves))
  {
    if moves != [] {
      OrderAlways(moves[..|moves| - 1]);
      MoveKeepsOrder(After(moves[..|moves| - 1]), moves[|moves| - 1]);
    }
  }

  // ---------------------------------------------------------------- no deadlock

  /** Each transaction of the list waits for the next. */
  predicate WaitChain(t: Table, txs: seq<TxId>) {
    forall i :: 1 <= i < |txs| ==> Waits(t, txs[i - 1], txs[i])
  }

  function Wanted(t: Table, tx: TxId): (n: nat)
    requires tx in t.ahead && t.ahead[tx] != []
  {
    Rank(t.ahead[tx][0])
  }

  /** Along a chain of waits the rank waited for rises. */
  lemma WaitsRise(t: Table, a: TxId, b: TxId)
    requires HoldsBelow(t) && Waits(t, a, b) && b in t.ahead && t.ahead[b] != []
    ensures Wanted(t, a) < Wanted(t, b)
  {}

  lemma {:induction false} ChainRises(t: Table, txs: seq<TxId>)
    requires HoldsBelow(t) && WaitChain(t, txs) && |txs| >= 2
    requires forall i :: 0 <= i < |txs| ==> txs[i] in t.ahead && t.ahead[txs[i]] != []
    ensures Wanted(t, txs[0]) < Wanted(t, txs[|txs| - 1])
  {
    var n := |txs| - 1;
    assert Waits(t, txs[n - 1], txs[n]);
    WaitsRise(t, txs[n - 1], txs[n]);
    if n >= 2 { ChainRises(t, txs[..n]); }
  }

  /** Over any number of transactions that lock in rank order, no reachable wait-for graph has a cycle. */
  lemma NoCycle(moves: seq<Move>, txs: seq<TxId>)
    requires Disciplined(moves) && |txs| >= 2 && WaitChain(After(moves), txs)
    ensures txs[0] != txs[|txs| - 1]
  {
    var t := After(moves);
    OrderAlways(moves);
    if txs[0] == txs[|txs| - 1] {
      assert Waits(t, txs[0], txs[1]);
      forall i | 0 <= i < |txs| ensures txs[i] in t.ahead && t.ahead[txs[i]] != [] {
        if i < |txs| - 1 { assert Waits(t, txs[(i + 1) - 1], txs[i + 1]); }
      }
      ChainRises(t, txs);
    }
  }

  lemma {:induction false} HolderIsFree(t: Table, tx: TxId) returns (free: TxId)
    requires HoldsBelow(t) && tx in t.ahead
    ensures free in t.ahead && !Waiting(t, free)
    decreases if Waiting(t, tx) then 8 - Wanted(t, tx) else 0
  {
    if !Waiting(t, tx) {
      free := tx;
    } else {
      var holder := t.holder[t.ahead[tx][0]];
      assert Waits(t, tx, holder);
      if Waiting(t, holder) { WaitsRise(t, tx, holder); }
      free := HolderIsFree(t, holder);
    }
  }

  /** As long as transactions are running, one of them can lock its next row or finish. */
  lemma SomeoneCanMove(moves: seq<Move>, tx: TxId) returns (free: TxId)
    requires Disciplined(moves) && tx in After(moves).ahead
    ensures var t := After(moves);
            && free in t.ahead
            && if t.ahead[free] == [] then free !in Moved(t, Finish(free)).ahead
               else free in Moved(t, Take(free)).ahead && |Moved(t, Take(free)).ahead[free]| == |t.ahead[free]| - 1
  {
    OrderAlways(moves);
    free := HolderIsFree(After(moves), tx);
  }

  // ---------------------------------------------------------------- which two transactions can deadlock

  /** Each can come to hold a row that the other wants next. */
  predicate CanDeadlock(p: seq<Row>, q: seq<Row>) {
    exists i, j :: 0 <= i < |p| && 0 <= j < |q| && CrossAt(p, q, i, j)
  }

  predicate CrossAt(p: seq<Row>, q: seq<Row>, i: nat, j: nat)
    requires i < |p| && j < |q|
  {
    p[i] in q[..j] && q[j] in p[..i] && forall x :: x in p[..i] ==> x !in q[..j]
  }

  /** Two transactions that run alone: both start, and then each takes its rows in order and may finish. */
  predicate TwoAlone(moves: seq<Move>, p: seq<Row>, q: seq<Row>) {
    && |moves| >= 2 && moves[0] == Start(1, p) && moves[1] == Start(2, q)
    && forall k :: 2 <= k < |moves| ==> moves[k] in {Take(1), Take(2), Finish(1), Finish(2)}
  }

  predicate Deadlocked(t: Table) {
    Waits(t, 1, 2) && Waits(t, 2, 1)
  }

  /** The transaction holds exactly the rows of its program that it has taken. */
  ghost predicate TookFirst(t: Table, tx: TxId, program: seq<Row>, taken: nat) {
    && taken <= |program| && tx in t.ahead && t.ahead[tx] == program[taken..]
    && forall row :: (row in t.holder && t.holder[row] == tx) <==> row in program[..taken]
  }

  ghost predicate InOrder(t: Table, tx: TxId, program: seq<Row>) {
    if tx in t.ahead then exists taken :: 0 <= taken <= |program| && TookFirst(t, tx, program, taken)
    else forall row :: row in t.holder ==> t.holder[row] != tx
  }

  lemma TakeKeepsOwn(t: Table, tx: TxId, program: seq<Row>)
    requires InOrder(t, tx, program)
    ensures InOrder(Moved(t, Take(tx)), tx, program)
  {
    var after := Moved(t, Take(tx));
    if after != t {
      var taken :| 0 <= taken <= |program| && TookFirst(t, tx, program, taken);
      assert program[taken..][1..] == program[taken + 1..];
      assert program[..taken + 1] == program[..taken] + [program[taken]];
      assert TookFirst(after, tx, program, taken + 1);
    }
  }

  lemma OtherKeeps(t: Table, tx: TxId, program: seq<Row>, m: Move)
    requires InOrder(t, tx, program) && (m.Take? || m.Finish?) && m.tx != tx
    ensures InOrder(Moved(t, m), tx, program)
  {
    var after := Moved(t, m);
    if tx in t.ahead {
      var taken :| 0 <= taken <= |program| && TookFirst(t, tx, program, taken);
      assert TookFirst(after, tx, program, taken);
    }
  }

  lemma FinishKeepsOwn(t: Table, tx: TxId, program: seq<Row>)
    requires InOrder(t, tx, program)
    ensures InOrder(Moved(t, Finish(tx)), tx, program)
  {}

  lemma MoveInOrder(t: Table, tx: TxId, program: seq<Row>, m: Move)
    requires InOrder(t, tx, program) && (m.Take? || m.Finish?)
    ensures InOrder(Moved(t, m), tx, program)
  {
    if m.tx != tx {
      OtherKeeps(t, tx, program, m);
    } else if m.Take? {
      TakeKeepsOwn(t, tx, program);
    } else {
      FinishKeepsOwn(t, tx, program);
    }
  }

  lemma BothStarted(p: seq<Row>, q: seq<Row>, moves: seq<Move>)
    requires moves == [Start(1, p), Start(2, q)]
    ensures After(moves) == Table(map[], map[1 := p, 2 := q])
  {
    assert moves == [] + [Start(1, p)] + [Start(2, q)];
    AfterLast([], Start(1, p));
    AfterLast([] + [Start(1, p)], Start(2, q));
  }

  lemma {:induction false} AlwaysInOrder(moves: seq<Move>, p: seq<Row>, q: seq<Row>)
    requires TwoAlone(moves, p, q)
    ensures InOrder(After(moves), 1, p) && InOrder(After(moves), 2, q)
  {
    if |moves| == 2 {
      BothStarted(p, q, moves);
      assert TookFirst(After(moves), 1, p, 0) && TookFirst(After(moves), 2, q, 0);
    } else {
      var most, last := moves[..|moves| - 1], moves[|moves| - 1];
      AlwaysInOrder(most, p, q);
      MoveInOrder(After(most), 1, p, last);
      MoveInOrder(After(most), 2, q, last);
    }
  }

  lemma DeadlockCrosses(t: Table, p: seq<Row>, q: seq<Row>)
    requires InOrder(t, 1, p) && InOrder(t, 2, q) && Deadlocked(t)
    ensures CanDeadlock(p, q)
  {
    var i :| 0 <= i <= |p| && TookFirst(t, 1, p, i);
    var j :| 0 <= j <= |q| && TookFirst(t, 2, q, j);
    assert p[i..][0] == p[i] && q[j..][0] == q[j];
    assert CrossAt(p, q, i, j);
  }

  function Takes(tx: TxId, n: nat): (moves: seq<Move>) {
    seq(n, _ => Take(tx))
  }

  lemma TakesNext(before: seq<Move>, tx: TxId, n: nat)
    requires n > 0
    ensures After(before + Takes(tx, n)) == Moved(After(before + Takes(tx, n - 1)), Take(tx))
  {
    assert before + Takes(tx, n) == (before + Takes(tx, n - 1)) + [Take(tx)];
    AfterLast(before + Takes(tx, n - 1), Take(tx));
  }

  /** Taking n rows that nobody else holds. */
  lemma {:induction false} TakesRows(before: seq<Move>, tx: TxId, program: seq<Row>, n: nat, t: Table)
    requires n <= |program| && t == After(before) && TookFirst(t, tx, program, 0)
    requires forall x :: x in program[..n] ==> x !in t.holder
    ensures var after := After(before + Takes(tx, n));
            && TookFirst(after, tx, program, n) && after.ahead == t.ahead[tx := program[n..]]
            && (forall row :: row in t.holder ==> row in after.holder && after.holder[row] == t.holder[row])
            && (forall row :: row in after.holder ==> row in t.holder || row in program[..n])
  {
    if n == 0 {
      assert before + Takes(tx, 0) == before;
      assert t.ahead[tx := program[0..]] == t.ahead;
    } else {
      assert program[..n] == program[..n - 1] + [program[n - 1]];
      TakesRows(before, tx, program, n - 1, t);
      TakesNext(before, tx, n);
      OneRowTaken(After(before + Takes(tx, n - 1)), tx, program, n - 1);
    }
  }

  lemma OneRowTaken(t: Table, tx: TxId, program: seq<Row>, taken: nat)
    requires taken < |program| && TookFirst(t, tx, program, taken)
    requires program[taken] in t.holder ==> t.holder[program[taken]] == tx
    ensures Moved(t, Take(tx)) == Table(t.holder[program[taken] := tx], t.ahead[tx := program[taken + 1..]])
    ensures TookFirst(Moved(t, Take(tx)), tx, program, taken + 1)
  {
    assert program[taken..][0] == program[taken] && program[taken..][1..] == program[taken + 1..];
    assert program[..taken + 1] == program[..taken] + [program[taken]];
  }

  lemma CrossDeadlocks(p: seq<Row>, q: seq<Row>, i: nat, j: nat) returns (moves: seq<Move>)
    requires i < |p| && j < |q| && CrossAt(p, q, i, j)
    ensures TwoAlone(moves, p, q) && Deadlocked(After(moves))
  {
    var starts := [Start(1, p), Start(2, q)];
    BothStarted(p, q, starts);
    var t := After(starts);
    assert p[0..] == p && q[0..] == q;
    TakesRows(starts, 1, p, i, t);
    var first := starts + Takes(1, i);
    var u := After(first);
    assert TookFirst(u, 2, q, 0);
    TakesRows(first, 2, q, j, u);
    moves := first + Takes(2, j);
    var v := After(moves);
    assert v.ahead[1] == p[i..] && v.ahead[2] == q[j..] && p[i..][0] == p[i] && q[j..][0] == q[j];
  }

  /** Two transactions that run alone can come to wait for each other exactly when their programs cross. */
  lemma DeadlockIffCross(p: seq<Row>, q: seq<Row>)
    ensures (exists moves :: TwoAlone(moves, p, q) && Deadlocked(After(moves))) <==> CanDeadlock(p, q)
  {
    forall moves | TwoAlone(moves, p, q) && Deadlocked(After(moves)) ensures CanDeadlock(p, q) {
      AlwaysInOrder(moves, p, q);
      DeadlockCrosses(After(moves), p, q);
    }
    if CanDeadlock(p, q) {
      var i, j :| 0 <= i < |p| && 0 <= j < |q| && CrossAt(p, q, i, j);
      var moves := CrossDeadlocks(p, q, i, j);
    }
  }

  // ---------------------------------------------------------------- editing a message

  /** What an edit locks: the controls it deletes, in whatever order, and then the conversation. */
  function EditProgram(ms: seq<MessageId>, c: ConversationId): (rows: seq<Row>) {
    seq(|ms|, i requires 0 <= i < |ms| => ControlRow(ms[i])) + [ConversationRow(c)]
  }

  /** The conversation first, and the control of a message among these later. */
  predicate LocksBackwards(q: seq<Row>, ms: seq<MessageId>, c: ConversationId) {
    exists x, y :: 0 <= x < y < |q| && q[x] == ConversationRow(c) && q[y].ControlRow? && q[y].message in ms
  }

  lemma BackwardsCrosses(q: seq<Row>, ms: seq<MessageId>, c: ConversationId, x: nat, y: nat)
    requires Ascending(q) && x < y < |q| && q[x] == ConversationRow(c) && q[y].ControlRow? && q[y].message in ms
    ensures CanDeadlock(EditProgram(ms, c), q)
  {
    var p := EditProgram(ms, c);
    var k :| 0 <= k < |ms| && ms[k] == q[y].message;
    assert p[..|ms|][k] == q[y] && q[..y][x] == p[|ms|];
    forall z | 0 <= z < y ensures !q[z].ControlRow? { assert Rank(q[z]) < Rank(q[y]); }
    forall row | row in p[..|ms|] ensures row !in q[..y] { assert row.ControlRow?; }
    assert CrossAt(p, q, |ms|, y);
  }

  lemma CrossIsBackwards(q: seq<Row>, ms: seq<MessageId>, c: ConversationId, i: nat, j: nat)
    requires Ascending(q) && i < |EditProgram(ms, c)| && j < |q| && CrossAt(EditProgram(ms, c), q, i, j)
    ensures LocksBackwards(q, ms, c)
  {
    var p := EditProgram(ms, c);
    var k :| 0 <= k < i && p[k] == q[j];
    assert p[k] == ControlRow(ms[k]);
    var x :| 0 <= x < j && q[x] == p[i];
    assert Rank(q[x]) < Rank(q[j]);
    assert p[i] == ConversationRow(c);
  }

  /** An edit, which deletes its control rows before it updates the conversation, can deadlock with a
      transaction that locks in rank order exactly when that one locks the conversation and afterwards the
      control of a message the edit removes, as finishing the message's run does. */
  lemma EditDeadlocksIff(ms: seq<MessageId>, c: ConversationId, q: seq<Row>)
    requires Ascending(q)
    ensures (exists moves :: TwoAlone(moves, EditProgram(ms, c), q) && Deadlocked(After(moves)))
            <==> LocksBackwards(q, ms, c)
  {
    var p := EditProgram(ms, c);
    DeadlockIffCross(p, q);
    if CanDeadlock(p, q) {
      var i, j :| 0 <= i < |p| && 0 <= j < |q| && CrossAt(p, q, i, j);
      CrossIsBackwards(q, ms, c, i, j);
    }
    if LocksBackwards(q, ms, c) {
      var x, y :| 0 <= x < y < |q| && q[x] == ConversationRow(c) && q[y].ControlRow? && q[y].message in ms;
      BackwardsCrosses(q, ms, c, x, y);
    }
  }

  /** Of the transactions that lock in rank order only a finish does: creating, cancelling, uploading, claiming
      and charging lock no control by name. */
  lemma OnlyFinishLocksBackwards(r: RunId, c: ConversationId, m: MessageId, ms: seq<MessageId>, d: ConversationId)
    ensures LocksBackwards([RunRow(r), ConversationRow(c), ControlRow(m)], ms, d) <==> c == d && m in ms
    ensures forall q: seq<Row> :: (forall i :: 0 <= i < |q| ==> !q[i].ControlRow?) ==> !LocksBackwards(q, ms, d)
  {
    var finish := [RunRow(r), ConversationRow(c), ControlRow(m)];
    if c == d && m in ms { assert finish[1] == ConversationRow(d) && finish[2].message in ms; }
  }

  /** What a delete locks: the conversation, and then the controls it deletes, in whatever order. */
  function DeleteProgram(ns: seq<MessageId>, c: ConversationId): (rows: seq<Row>) {
    [ConversationRow(c)] + seq(|ns|, i requires 0 <= i < |ns| => ControlRow(ns[i]))
  }

  lemma {:induction false} FirstShared(ns: seq<MessageId>, ms: seq<MessageId>) returns (y: nat)
    requires exists n :: n in ns && n in ms
    ensures y < |ns| && ns[y] in ms && forall z :: 0 <= z < y ==> ns[z] !in ms
  {
    if ns[0] in ms {
      y := 0;
    } else {
      var n :| n in ns && n in ms;
      assert n in ns[1..];
      y := FirstShared(ns[1..], ms);
      y := y + 1;
    }
  }

  /** An edit can deadlock with a delete of the same conversation exactly when both delete some control. */
  lemma EditDeadlocksWithDelete(ms: seq<MessageId>, ns: seq<MessageId>, c: ConversationId)
    ensures (exists moves :: TwoAlone(moves, EditProgram(ms, c), DeleteProgram(ns, c)) && Deadlocked(After(moves)))
            <==> exists n :: n in ns && n in ms
  {
    var p, q := EditProgram(ms, c), DeleteProgram(ns, c);
    DeadlockIffCross(p, q);
    if CanDeadlock(p, q) {
      var i, j :| 0 <= i < |p| && 0 <= j < |q| && CrossAt(p, q, i, j);
      var k :| 0 <= k < i && p[k] == q[j];
      assert p[k] == ControlRow(ms[k]) && j > 0 && q[j] == ControlRow(ns[j - 1]);
      assert ns[j - 1] in ns && ns[j - 1] in ms;
    }
    if exists n :: n in ns && n in ms {
      var y := FirstShared(ns, ms);
      SharedCrosses(ms, ns, c, y);
    }
  }

  lemma SharedCrosses(ms: seq<MessageId>, ns: seq<MessageId>, c: ConversationId, y: nat)
    requires y < |ns| && ns[y] in ms && forall z :: 0 <= z < y ==> ns[z] !in ms
    ensures CanDeadlock(EditProgram(ms, c), DeleteProgram(ns, c))
  {
    var p, q := EditProgram(ms, c), DeleteProgram(ns, c);
    var k :| 0 <= k < |ms| && ms[k] == ns[y];
    assert p[..|ms|][k] == q[y + 1] && q[..y + 1][0] == p[|ms|];
    forall x, z | 0 <= x < |ms| && 0 <= z < y + 1 ensures p[x] != q[z] {
      assert p[x] == ControlRow(ms[x]) && ms[x] in ms;
    }
    assert CrossAt(p, q, |ms|, y + 1);
  }

  lemma AfterLast(moves: seq<Move>, m: Move)
    ensures After(moves + [m]) == Moved(After(moves), m)
  {
    assert (moves + [m])[..|moves|] == moves;
  }
}
