/** The fencing token of an operation: at every moment at most one worker holds it, and a worker
    that has lost it never holds it again. */
module Fencing {
  import opened Collections
  import opened CatalogConfig
  import opened Schemas
  import opened PullOperations
  import opened Store
  import opened Protocol
  import opened Invariant
  import opened Safety
  import opened Steps

  ghost predicate Apart(w: World, i: nat, j: nat)
  {
    i != j && Executing(PcOf(w, i)) && Executing(PcOf(w, j)) ==> PcOf(w, i).job.token != PcOf(w, j).job.token
  }

  ghost predicate TokensApart(w: World)
  {
    forall i, j {:trigger Apart(w, i, j)} :: Apart(w, i, j)
  }

  lemma HeldTokenIssued(w: World, i: nat)
    requires Inv(w)
    ensures Executing(PcOf(w, i)) ==> PcOf(w, i).job.token in w.issued
  {
    WorkerFact(w, i);
  }

  lemma TokensStayApart(w: World, a: Action)
    requires Inv(w) && TokensApart(w)
    ensures TokensApart(Apply(w, a))
  {
    var w' := Apply(w, a);
    if ActorOf(a).None? {
      OutsideStep(w, a);
      forall i, j ensures Apart(w', i, j) { assert Apart(w, i, j); }
    } else {
      ActionStep(w, a);
      StillApart(w, w', a.i);
    }
  }

  lemma StillApart(w: World, w': World, k: nat)
    requires Inv(w) && TokensApart(w) && Step(w, w', k)
    ensures TokensApart(w')
  {
    forall i, j
      ensures Apart(w', i, j)
    {
      assert Apart(w, i, j);
      HeldTokenIssued(w, i);
      HeldTokenIssued(w, j);
    }
  }

  lemma {:induction false} RunKeepsTokensApart(w: World, actions: seq<Action>)
    requires Inv(w) && TokensApart(w)
    ensures TokensApart(Run(w, actions))
    decreases |actions|
  {
    if actions != [] {
      TokensStayApart(w, actions[0]);
      ActionSafe(w, actions[0]);
      RunKeepsTokensApart(Apply(w, actions[0]), actions[1..]);
    }
  }

  /** The worker holds a job whose token its row still carries; only such a worker can commit or
      fail the operation. */
  ghost predicate Current(w: World, i: nat, id: Uuid)
  {
    && Executing(PcOf(w, i)) && PcOf(w, i).job.id == id
    && id in w.db.operations && w.db.operations[id].token == Some(PcOf(w, i).job.token)
  }

  /** Leases expire under live workers, yet no operation ever has two current owners. */
  lemma OneOwner(w0: World, actions: seq<Action>, i: nat, j: nat, id: Uuid)
    requires Init(w0)
    requires Current(Run(w0, actions), i, id) && Current(Run(w0, actions), j, id)
    ensures i == j
  {
    InitInv(w0);
    assert TokensApart(w0) by {
      forall m, n ensures Apart(w0, m, n) {}
    }
    RunKeepsTokensApart(w0, actions);
    assert Apart(Run(w0, actions), i, j);
  }

  lemma LostByOneAction(w: World, a: Action, id: Uuid, token: Uuid)
    requires Inv(w) && token in w.issued && id in w.db.operations && w.db.operations[id].token != Some(token)
    ensures var w' := Apply(w, a);
            && Inv(w') && token in w'.issued
            && id in w'.db.operations && w'.db.operations[id].token != Some(token)
  {
    ActionSafe(w, a);
    if ActorOf(a).None? {
      OutsideStep(w, a);
    } else {
      ActionStep(w, a);
      LostByOneStep(w, Apply(w, a), a.i, id, token);
    }
  }

  lemma LostByOneStep(w: World, w': World, i: nat, id: Uuid, token: Uuid)
    requires Grows(w, w') && Step(w, w', i) && token in w.issued
    requires id in w.db.operations && w.db.operations[id].token != Some(token)
    ensures id in w'.db.operations && w'.db.operations[id].token != Some(token)
  {
    assert RowMove(w, PcOf(w, i), id, w'.db.operations[id]);
  }

  /** A token that a row does not carry, once issued, is not carried by it again: a worker whose
      claim was taken over can never again commit or fail the operation. */
  lemma {:induction false} LostOwnershipIsLostForever(w: World, actions: seq<Action>, id: Uuid, token: Uuid)
    requires Inv(w) && token in w.issued && id in w.db.operations && w.db.operations[id].token != Some(token)
    ensures var later := Run(w, actions); id in later.db.operations && later.db.operations[id].token != Some(token)
    decreases |actions|
  {
    if actions != [] {
      LostByOneAction(w, actions[0], id, token);
      LostOwnershipIsLostForever(Apply(w, actions[0]), actions[1..], id, token);
    }
  }

  /** A commit takes effect only for the current owner of the operation. */
  lemma OnlyOwnerCommits(w: World, i: nat, now: Time, fate: Fate)
    ensures var w' := DoCommit(w, i, now, fate);
            w'.db != w.db ==> PcOf(w, i).Committing? && Current(w, i, PcOf(w, i).job.id)
  {
    if PcOf(w, i).Committing? && CommitOutcomeOf(w, PcOf(w, i).job, PcOf(w, i).response, now).CommitDone? {
    } else if PcOf(w, i).Committing? {
      var pc := MissedCommitGoes(w, i, now, fate);
    }
  }

  /** And so does a failure. */
  lemma OnlyOwnerFails(w: World, i: nat, now: Time, fate: Fate)
    ensures var w' := DoFail(w, i, now, fate);
            w'.db != w.db ==> PcOf(w, i).Rejecting? && Current(w, i, PcOf(w, i).job.id)
  {
  }
}
