/** The life of an operation: its status follows one path, whatever the two unfenced saves do. */
module Lifecycle {
  import opened Collections
  import opened CatalogConfig
  import opened Schemas
  import opened PullOperations
  import opened Store
  import opened Protocol
  import opened Invariant
  import opened Safety
  import opened Steps

  /** One step along processing, event_pending, event_published, succeeded, or from processing or
      refund_pending to failed. */
  predicate Follows(s: PullOperationStatus, s': PullOperationStatus)
  {
    || (s.Processing? && (s'.EventPending? || s'.Failed?))
    || (s.EventPending? && s'.EventPublished?)
    || (s.EventPublished? && s'.Succeeded?)
    || (s.RefundPending? && s'.Failed?)
  }

  /** How far an operation is from succeeded or failed. */
  function Rank(s: PullOperationStatus): (n: nat)
  {
    match s
    case Processing => 3
    case EventPending => 2
    case EventPublished => 1
    case RefundPending => 1
    case Succeeded => 0
    case Failed => 0
  }

  /** A save of a published delivery finds its row event_pending or beyond, and one of a received
      delivery finds it event_published or beyond, however long the worker was away. */
  lemma SavesFindTheirRow(w: World, i: nat, id: Uuid)
    requires Inv(w) && id in w.db.operations
    requires PcOf(w, i).SavingPublished? || PcOf(w, i).SavingSucceeded?
    requires TargetId(w.db, PcOf(w, i).delivery.target) == Some(id)
    ensures PullOperations.Committed(w.db.operations[id].status)
    ensures PcOf(w, i).SavingSucceeded? ==> !w.db.operations[id].status.EventPending?
  {
    WorkerFact(w, i);
  }

  /** Every action leaves the status of every operation alone or moves it one step along. */
  lemma StatusFollows(w: World, a: Action, id: Uuid)
    requires Inv(w) && id in w.db.operations
    ensures var w' := Apply(w, a);
            && id in w'.db.operations
            && var s, s' := w.db.operations[id].status, w'.db.operations[id].status;
               (s' == s || Follows(s, s'))
  {
    ActionSafe(w, a);
    if ActorOf(a).None? {
      OutsideStep(w, a);
    } else {
      ActionStep(w, a);
      MoveFollows(w, Apply(w, a), a.i, id);
    }
  }

  lemma MoveFollows(w: World, w': World, i: nat, id: Uuid)
    requires Inv(w) && Grows(w, w') && Step(w, w', i) && id in w.db.operations
    ensures id in w'.db.operations
    ensures var s, s' := w.db.operations[id].status, w'.db.operations[id].status; s' == s || Follows(s, s')
  {
    var pc := PcOf(w, i);
    assert RowMove(w, pc, id, w'.db.operations[id]);
    if (pc.SavingPublished? || pc.SavingSucceeded?) && TargetId(w.db, pc.delivery.target) == Some(id) {
      SavesFindTheirRow(w, i, id);
    }
  }

  /** The statuses an operation shows along a run, read every time it changes, are a path. */
  ghost predicate WalksThePath(w: World, actions: seq<Action>, id: Uuid)
    decreases |actions|
  {
    id in w.db.operations &&
    if actions == [] then true
    else
      var w' := Apply(w, actions[0]);
      && id in w'.db.operations
      && var s, s' := w.db.operations[id].status, w'.db.operations[id].status;
         && (s' == s || (Follows(s, s') && Rank(s') < Rank(s)))
         && WalksThePath(w', actions[1..], id)
  }

  lemma FollowingLowersRank(s: PullOperationStatus, s': PullOperationStatus)
    ensures Follows(s, s') ==> Rank(s') < Rank(s)
  {
  }

  lemma {:induction false} StatusWalksThePath(w: World, actions: seq<Action>, id: Uuid)
    requires Inv(w) && id in w.db.operations
    ensures WalksThePath(w, actions, id)
    decreases |actions|
  {
    if actions != [] {
      StatusFollows(w, actions[0], id);
      ActionSafe(w, actions[0]);
      var w' := Apply(w, actions[0]);
      StatusWalksThePath(w', actions[1..], id);
      FollowingLowersRank(w.db.operations[id].status, w'.db.operations[id].status);
    }
  }

  /** From any reachable world on: failed and succeeded are final, and once an operation is
      committed its request hash, response and event never change. */
  lemma TerminalAndCommittedAreFinal(w0: World, actions: seq<Action>, more: seq<Action>, id: Uuid)
    requires Init(w0) && id in Run(w0, actions).db.operations
    ensures var w, later := Run(w0, actions), Run(Run(w0, actions), more);
            && WalksThePath(w, more, id)
            && id in later.db.operations
            && var row, row' := w.db.operations[id], later.db.operations[id];
               && row'.origin == row.origin && row'.requestHash == row.requestHash
               && (row.status.Failed? || row.status.Succeeded? ==> row'.status == row.status)
               && (PullOperations.Committed(row.status) ==>
                     PullOperations.Committed(row'.status) && row'.response == row.response && row'.event == row.event)
  {
    ReachableInv(w0, actions);
    StatusWalksThePath(Run(w0, actions), more, id);
    FinalFromHereOn(Run(w0, actions), more, id);
  }

  lemma FinalFromHereOn(w: World, more: seq<Action>, id: Uuid)
    requires Inv(w) && id in w.db.operations
    ensures id in Run(w, more).db.operations
    ensures var row, row' := w.db.operations[id], Run(w, more).db.operations[id];
            && row'.origin == row.origin && row'.requestHash == row.requestHash
            && (row.status.Failed? || row.status.Succeeded? ==> row'.status == row.status)
            && (PullOperations.Committed(row.status) ==>
                  PullOperations.Committed(row'.status) && row'.response == row.response && row'.event == row.event)
  {
    RunSafe(w, more);
    assert RowGrows(w.db.operations[id], Run(w, more).db.operations[id]);
  }
}
