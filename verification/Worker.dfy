/** The claim loop of a worker. */
module Worker {
  import opened Records
  import opened Transactions
  import Store
  import ClaimOrder

  /** The claims still open to the stored runs, as pairs of a run and a number. */
  function ClaimsLeft(cfg: Config, runs: map<RunId, Run>): (result: set<(RunId, int)>) {
    set r, k | r in runs && 0 <= k < cfg.maxAttempts - runs[r].attempts :: (r, k)
  }

  lemma ClaimUsesOne(cfg: Config, runs: map<RunId, Run>, r: RunId, run: Run)
    requires r in runs && runs[r].attempts < cfg.maxAttempts && run.attempts == runs[r].attempts + 1
    ensures |ClaimsLeft(cfg, runs[r := run])| == |ClaimsLeft(cfg, runs)| - 1
  {
    var last := (r, cfg.maxAttempts - runs[r].attempts - 1);
    assert last in ClaimsLeft(cfg, runs);
    assert ClaimsLeft(cfg, runs[r := run]) == ClaimsLeft(cfg, runs) - {last};
  }

  /** The run is leased to the worker. */
  predicate Taken(runs: map<RunId, Run>, r: RunId, worker: WorkerId) {
    r in runs && runs[r].status == Dispatched && runs[r].leaseOwner == Some(worker)
  }

  lemma TakenStays(runs: map<RunId, Run>, some: set<RunId>, r: RunId, run: Run, worker: WorkerId)
    requires (forall q :: q in some ==> Taken(runs, q, worker)) && r in runs
    requires run.status == Dispatched && run.leaseOwner == Some(worker)
    ensures forall q :: q in some + {r} ==> Taken(runs[r := run], q, worker)
  {}

  /** Claims until all slots are taken or nothing is claimable. The clock and the rows that others
      hold locked may be anything at each attempt. It ends because every claim uses up one of the
      finitely many that the stored runs still have. */
  method FillSlots(db: Store.Database, worker: WorkerId, active: set<RunId>, concurrency: nat,
                   clock: nat -> Time, busy: nat -> set<RunId>) returns (next: set<RunId>, claims: nat)
    requires db.Valid()
    modifies db
    ensures db.Valid() && db.State() == old(db.State()).(runs := db.runs)
    ensures active <= next && |next| <= Max(|active|, concurrency)
    ensures forall r :: r in next - active ==> Taken(db.runs, r, worker)
    ensures |ClaimsLeft(db.cfg, db.runs)| + claims == |ClaimsLeft(db.cfg, old(db.runs))|
    ensures |next| < concurrency ==>
              forall r :: r in db.runs && r !in busy(claims) ==> !ClaimOrder.Ready(db.cfg, db.runs[r], clock(claims))
  {
    next := active;
    claims := 0;
    ghost var mine: set<RunId> := {};
    while |next| < concurrency
      invariant db.Valid() && db.State() == old(db.State()).(runs := db.runs)
      invariant next == active + mine && |next| <= Max(|active|, concurrency)
      invariant forall r :: r in mine ==> Taken(db.runs, r, worker)
      invariant |ClaimsLeft(db.cfg, db.runs)| + claims == |ClaimsLeft(db.cfg, old(db.runs))|
      decreases |ClaimsLeft(db.cfg, db.runs)|
    {
      ghost var before := db.runs;
      var claimed := db.ClaimNextRun(worker, busy(claims), clock(claims));
      if claimed.None? {
        return;
      }
      ghost var row := ClaimedRow(db.cfg, before[claimed.value], worker, clock(claims));
      assert db.runs == before[claimed.value := row];
      ClaimUsesOne(db.cfg, before, claimed.value, row);
      TakenStays(before, mine, claimed.value, row, worker);
      next := next + {claimed.value};
      mine := mine + {claimed.value};
      claims := claims + 1;
    }
  }
}
