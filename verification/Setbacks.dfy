/** What a worker does when a call fails or its answer is lost: it stops, turns to reconciling, or
    turns to releasing its lock; it never goes on as if it had been answered, and it never touches
    anything else. */
module Setbacks {
  import opened Collections
  import opened CatalogConfig
  import opened Schemas
  import opened Engine
  import opened PullOperations
  import opened CatalogAssembly
  import opened CatalogRepository
  import opened Store
  import opened Protocol
  import opened Invariant
  import opened Replays

  /** A request whose insertion or claim was not acknowledged ends; its row, if it was stored, is
      left to recovery. */
  lemma UnheardBeginEnds(w: World, i: nat, id: Uuid, token: Uuid, until: Time, now: Time, fate: Fate)
    requires !fate.Acked? && token !in w.issued && id !in w.db.operations
    ensures PcOf(w, i).Inserting? ==> PcOf(DoInsert(w, i, id, token, until, now, fate), i) == Idle
    ensures PcOf(w, i).Claiming? ==> PcOf(DoClaim(w, i, token, until, now, fate), i) == Idle
    ensures fate.Dropped? ==>
              && DoInsert(w, i, id, token, until, now, fate).db == w.db
              && DoClaim(w, i, token, until, now, fate).db == w.db
  {
  }

  /** So does a recovery worker whose claim missed, or was not acknowledged. */
  lemma UnheardClaimEnds(w: World, i: nat, token: Uuid, until: Time, now: Time, fate: Fate)
    requires token !in w.issued && PcOf(w, i).ClaimingExpired?
    requires !fate.Acked? || ClaimExpired(w.db, PcOf(w, i).id, token, until, now).None?
    ensures PcOf(DoTakeExpired(w, i, token, until, now, fate), i) == Idle
  {
  }

  /** And one whose lock on a pending row did. */
  lemma UnheardLockEnds(w: World, i: nat, until: Time, now: Time, fate: Fate)
    requires PcOf(w, i).ClaimingPending?
    requires !fate.Acked? || ClaimPending(w.db, PcOf(w, i).id, PcOf(w, i).copy.status, until, now).None?
    ensures PcOf(DoTakePending(w, i, until, now, fate), i) == Idle
  {
  }

  /** And one whose lock on a refund did. */
  lemma UnheardRefundLockEnds(w: World, i: nat, until: Time, now: Time, fate: Fate)
    requires PcOf(w, i).ClaimingRefund?
    requires !fate.Acked? || ClaimPending(w.db, PcOf(w, i).id, RefundPending, until, now).None?
    ensures PcOf(DoTakeRefund(w, i, until, now, fate), i) == Idle
  {
  }

  // ---- a write whose answer is lost has happened; a dropped one has not --------------------

  lemma InsertLandsUnheard(w: World, i: nat, id: Uuid, token: Uuid, until: Time, now: Time)
    requires PcOf(w, i).Inserting? && id !in w.db.operations && token !in w.issued
    ensures DoInsert(w, i, id, token, until, now, AckLost).db == DoInsert(w, i, id, token, until, now, Acked).db
    ensures DoInsert(w, i, id, token, until, now, Dropped).db == w.db
  {
  }

  lemma ClaimLandsUnheard(w: World, i: nat, token: Uuid, until: Time, now: Time)
    requires PcOf(w, i).Claiming? && token !in w.issued
    ensures DoClaim(w, i, token, until, now, AckLost).db == DoClaim(w, i, token, until, now, Acked).db
    ensures DoClaim(w, i, token, until, now, Dropped).db == w.db
  {
  }

  lemma TakeoverLandsUnheard(w: World, i: nat, token: Uuid, until: Time, now: Time)
    ensures DoTakeExpired(w, i, token, until, now, AckLost).db == DoTakeExpired(w, i, token, until, now, Acked).db
    ensures DoTakeExpired(w, i, token, until, now, Dropped).db == w.db
  {
  }

  lemma LockLandsUnheard(w: World, i: nat, until: Time, now: Time)
    ensures DoTakePending(w, i, until, now, AckLost).db == DoTakePending(w, i, until, now, Acked).db
    ensures DoTakeRefund(w, i, until, now, AckLost).db == DoTakeRefund(w, i, until, now, Acked).db
    ensures DoTakePending(w, i, until, now, Dropped).db == w.db && DoTakeRefund(w, i, until, now, Dropped).db == w.db
  {
  }

  lemma SaveLandsUnheard(w: World, i: nat, now: Time)
    ensures DoSavePublished(w, i, now, AckLost).db == DoSavePublished(w, i, now, Acked).db
    ensures DoSaveSucceeded(w, i, now, AckLost).db == DoSaveSucceeded(w, i, now, Acked).db
    ensures DoSavePublished(w, i, now, Dropped).db == w.db && DoSaveSucceeded(w, i, now, Dropped).db == w.db
  {
  }

  lemma FailureLandsUnheard(w: World, i: nat, now: Time)
    ensures DoFail(w, i, now, AckLost).db == DoFail(w, i, now, Acked).db
    ensures DoSaveFailed(w, i, now, AckLost).db == DoSaveFailed(w, i, now, Acked).db
    ensures DoFail(w, i, now, Dropped).db == w.db && DoSaveFailed(w, i, now, Dropped).db == w.db
  {
  }

  // ---- what a reply, or its absence, leads to ---------------------------------------------

  /** Asset's reply decides a spend, and only a true one: charged goes on to pull, rejected to fail
      with the code given, unknown leaves the operation processing. */
  lemma SpendReplyDecides(w: World, i: nat, code: string)
    requires PcOf(w, i).AwaitingCharge?
    ensures var job := PcOf(w, i).job;
            var key, call := job.context.eventId.origin, SpendCall(job.origin.user, ChargeOf(job.context));
            var commits := |Hist(w, KeyOf(job.origin, job.context))|;
            && MovesOnly(w, DoHearSpend(w, i, SpendUnknown), i, Idle)
            && (if key in w.ledger.charged && w.ledger.charged[key] == call
                then MovesOnly(w, DoHearSpend(w, i, SpendAccepted), i, ReadingPity(job, 1, commits))
                else DoHearSpend(w, i, SpendAccepted) == w)
            && (if key in w.ledger.rejected
                then MovesOnly(w, DoHearSpend(w, i, SpendRejected(code)), i, Rejecting(job, code))
                else DoHearSpend(w, i, SpendRejected(code)) == w)
  {
  }

  /** A pity that cannot be read leads to reconciling; a pull the engine cannot answer ends, and so
      does a reconciliation that cannot be read. */
  lemma UnreadPityReconciles(w: World, i: nat)
    ensures PcOf(w, i).ReadingPity? ==>
              var ReadingPity(job, _, _) := PcOf(w, i);
              && MovesOnly(w, DoReadPity(w, i, false), i, Reconciling(job))
              && (w.engine(job.context, StoredPity(w.db, KeyOf(job.origin, job.context)).pity).Err? ==>
                    MovesOnly(w, DoReadPity(w, i, true), i, Idle))
    ensures PcOf(w, i).Reconciling? ==> MovesOnly(w, DoReconcile(w, i, false), i, Idle)
  {
  }

  /** A commit whose answer is lost leads to reconciling, whether it took effect or not. */
  lemma UnheardCommitReconciles(w: World, i: nat, now: Time, fate: Fate)
    requires PcOf(w, i).Committing? && !fate.Acked?
    ensures PcOf(DoCommit(w, i, now, fate), i) == Reconciling(PcOf(w, i).job)
    ensures fate.Dropped? ==> DoCommit(w, i, now, fate).db == w.db
  {
  }

  /** A failure that cannot be stored ends too: the operation stays processing. */
  lemma UnstoredFailureEnds(w: World, i: nat, now: Time, fate: Fate)
    requires PcOf(w, i).Rejecting?
    ensures PcOf(DoFail(w, i, now, fate), i) == Idle
    ensures fate.Dropped? ==> MovesOnly(w, DoFail(w, i, now, fate), i, Idle)
  {
  }

  /** A request whose banner is not offered, or whose row is not there, ends without a trace. */
  lemma NothingToLookUp(w: World, i: nat)
    requires PcOf(w, i).LookingUp? && PcOf(w, i).origin !in w.db.byUserKey
    ensures MovesOnly(w, DoLookUp(w, i), i, Idle)
  {
  }

  /** And so does one the service cannot read: an unserved count, or a catalog that cannot be had. */
  lemma UnreadableStartsNothing(w: World, i: nat, origin: UserKey, request: PullRequest, source: Source,
                                acceptedAt: Time, version: string, sha: string)
    requires request.count !in {1, 10} || SnapshotOf(w, source).Err?
    ensures DoStart(w, i, origin, request, source, acceptedAt, version, sha) == w
  {
  }
}
