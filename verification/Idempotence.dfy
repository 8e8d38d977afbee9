/** One run for each request key: a retried create finds the run that the first one made. */
module Idempotence {
  import opened Records
  import opened Transactions
  import opened Protocol
  import opened RunInvariants
  import opened RunTransitions

  predicate SameUserKey(a: Run, b: Run) {
    a.owner.Some? && a.owner == b.owner && a.key == b.key
  }

  predicate SameSessionKey(a: Run, b: Run) {
    a.session == b.session && a.key == b.key
  }

  /** No two stored runs share a key with the same user or the same session. */
  ghost predicate KeysUnique(db: Db) {
    forall q, r ::
      && q in db.runs && r in db.runs
      && (SameUserKey(db.runs[q], db.runs[r]) || SameSessionKey(db.runs[q], db.runs[r])) ==>
        q == r
  }

  // ---------------------------------------------------------------- every step keeps it

  lemma CreateForUserIsNew(cfg: Config, db: Db, r: RunId, u: UserId, req: Request, ordinal: nat, now: Time)
    ensures CreateForUser(cfg, db, r, u, req, ordinal, now).1.Created? ==> !InsertConflict(db, r, req, ordinal)
  {}

  lemma CreateIsNew(cfg: Config, db: Db, r: RunId, req: Request, now: Time)
    ensures CreateRun(cfg, db, r, req, now).1.Created? ==>
              forall q :: q in db.runs ==>
                  !SameRequest(db.runs[q], req) && !(db.runs[q].session == req.session && db.runs[q].key == req.key)
  {
    if req.owner.Some? { CreateForUserIsNew(cfg, db, r, req.owner.value, req, NextControl(db, req), now); }
    assert CreateRun(cfg, db, r, req, now).1.Created? ==> !InsertConflict(db, r, req, NextControl(db, req));
  }

  lemma AddedKeyIsUnique(db: Db, after: Db, r: RunId, run: Run, req: Request)
    requires KeysUnique(db) && r !in db.runs && after.runs == db.runs[r := run]
    requires run.owner == req.owner && run.session == req.session && run.key == req.key
    requires forall q :: q in db.runs ==>
             !SameRequest(db.runs[q], req) && !(db.runs[q].session == req.session && db.runs[q].key == req.key)
    ensures KeysUnique(after)
  {
    forall q, p | q in after.runs && p in after.runs
                  && (SameUserKey(after.runs[q], after.runs[p]) || SameSessionKey(after.runs[q], after.runs[p]))
      ensures q == p
    {
      if q in db.runs && q != r { assert after.runs[q] == db.runs[q]; }
      if p in db.runs && p != r { assert after.runs[p] == db.runs[p]; }
    }
  }

  lemma CreateKeepsKeys(cfg: Config, s: System, step: Step, after: System)
    requires step.Create? && after == Apply(cfg, s, step) && KeysUnique(s.db)
    ensures KeysUnique(after.db)
  {
    CreateStep(cfg, s, step, after);
    if after != s {
      CreateIsNew(cfg, s.db, step.r, step.req, step.now);
      AddedKeyIsUnique(s.db, after.db, step.r, NewRun(cfg, step.req, step.now), step.req);
    }
  }

  lemma StepKeepsKeys(cfg: Config, s: System, step: Step, after: System)
    requires Sound(cfg, s) && KeysUnique(s.db) && after == Apply(cfg, s, step)
    ensures KeysUnique(after.db)
  {
    if step.Create? {
      CreateKeepsKeys(cfg, s, step, after);
    } else {
      IdentityStays(cfg, s, step, after);
      OldKeysStay(s.db, after.db);
    }
  }

  lemma OldKeysStay(db: Db, after: Db)
    requires KeysUnique(db) && IdentitiesKept(db, after)
    ensures KeysUnique(after)
  {
    forall q, r | q in after.runs && r in after.runs
                  && (SameUserKey(after.runs[q], after.runs[r]) || SameSessionKey(after.runs[q], after.runs[r]))
      ensures q == r
    {
      assert SameIdentity(db.runs[q], after.runs[q]) && SameIdentity(db.runs[r], after.runs[r]);
    }
  }

  lemma {:induction false} KeysUniqueAlways(cfg: Config, accounts: map<UserId, Account>, steps: seq<Step>, s: System)
    requires s == Protocol.Run(cfg, Fresh(accounts), steps)
    ensures KeysUnique(s.db)
  {
    if steps != [] {
      var before := Protocol.Run(cfg, Fresh(accounts), steps[..|steps| - 1]);
      KeysUniqueAlways(cfg, accounts, steps[..|steps| - 1], before);
      SoundAlways(cfg, accounts, steps[..|steps| - 1], before);
      StepKeepsKeys(cfg, before, steps[|steps| - 1], s);
    }
  }

  // ---------------------------------------------------------------- retries

  lemma MatchesAreOne(db: Db, req: Request, q: RunId, r: RunId)
    requires KeysUnique(db) && q in db.runs && r in db.runs && SameRequest(db.runs[q], req)
             && SameRequest(db.runs[r], req)
    ensures q == r
  {
    assert SameUserKey(db.runs[q], db.runs[r]) || SameSessionKey(db.runs[q], db.runs[r]);
  }

  /** In every reachable state, as long as the first run is stored, a create with the same key and
      sender returns that very run and changes nothing: no second run, no second unit. */
  lemma RetryReturnsTheRun(cfg: Config, accounts: map<UserId, Account>, steps: seq<Step>, s: System, r: RunId,
                           req: Request, again: RunId, now: Time)
    requires s == Protocol.Run(cfg, Fresh(accounts), steps)
    requires r in s.db.runs && SameRequest(s.db.runs[r], req)
    ensures CreateRun(cfg, s.db, again, req, now) == (s.db, Existing(r))
  {
    KeysUniqueAlways(cfg, accounts, steps, s);
    forall q | q in s.db.runs && SameRequest(s.db.runs[q], req) ensures q == r { MatchesAreOne(s.db, req, q, r); }
  }

  /** A create that made a run is found by its own retry. */
  lemma CreatedRunIsFound(cfg: Config, db: Db, r: RunId, req: Request, now: Time)
    ensures var (after, outcome) := CreateRun(cfg, db, r, req, now);
            outcome.Created? ==> r in after.runs && SameRequest(after.runs[r], req)
  {
    CreateAddsOneRun(cfg, db, r, req, now);
  }
}
