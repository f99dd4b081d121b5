/** Every change of a punishment's status, and what causes it. */
module Fates {
  import opened Domain
  import opened Tables
  import opened Machine
  import opened Invariant
  import opened Preservation
  import opened Evolution
  import opened Effects
  import opened World
  import opened Runs
  import opened Revocation
  import opened Receipts
  import opened Saga

  /** The status row k has after a step of the running punishment program: its own program
      ends it as done, skipped or failed; the commit of a newer manual action skips it;
      nothing else touches it. */
  function FateIn(g: Group, s: MemberState, k: nat): PunishmentStatus
    requires s.proc.Punishing? && k < |s.rows| && s.proc.run.k < |s.rows|
  {
    var run := s.proc.run;
    if s.rows[k].status != Pending then s.rows[k].status
    else if run.k == k then
      match run.pc
      case MarkDone => Done
      case MarkSkipped => Skipped
      case MarkFailed => Failed
      case Reject => Failed
      case _ => Pending
    else if run.pc == Complete && k < run.k && s.rows[run.k].source == Manual
            && Permission(s.rows[run.k].decision.action) && AuthorityHolds(g, s.rows[run.k])
    then Skipped
    else Pending
  }

  /** The status of row k after any move. */
  function Fate(w: World, m: Move, id: MemberId, k: nat): PunishmentStatus
    requires k < |RowsOf(w, id)|
  {
    var s := MemberOf(w, id);
    if s.rows[k].status != Pending then s.rows[k].status
    else if Loses(w, m, id.chat) then Skipped
    else if m.Step? && m.id == id && m.l.Go? && s.proc.Punishing? && s.proc.run.k < |s.rows|
    then FateIn(GroupOf(w, id.chat), s, k)
    else Pending
  }

  // ---------------------------------------------------------------- updates of one row

  lemma UnmovedByWorkflow(g: Group, r: Row)
    ensures InsertWorkflow(g, r).status == r.status
  {
  }

  lemma UnmovedByCall(r: Row, o: Outcome, u: Option<int>)
    ensures Noted(r, o, u).status == r.status
  {
  }

  lemma UnmovedByKick(r: Row)
    ensures MarkKickBanned(r).status == r.status
  {
  }

  lemma UnmovedSteps(r: Row)
    ensures StepDeleted(r).status == r.status && StepActed(r).status == r.status
  {
  }

  lemma UnmovedStart(g: Group, r: Row, until: Option<int>)
    ensures StartPermission(g, r, until).Some? ==> StartPermission(g, r, until).value.status == r.status
  {
  }

  lemma Moved(r: Row)
    ensures StepDone(r).status == if r.status == Pending then Done else r.status
    ensures StepSkipped(r).status == if r.status == Pending then Skipped else r.status
  {
  }

  lemma MovedToFailed(r: Row)
    ensures FailPunishment(r).status == if r.status == Pending then Failed else r.status
    ensures RejectPunishment(r).status == if r.status == Pending && r.workflow then Failed else r.status
  {
  }

  // ---------------------------------------------------------------- steps

  /** After the step, row k has its fate. */
  predicate Meets(g: Group, s: MemberState, s': MemberState, k: nat) {
    k < |s.rows| && s.proc.Punishing? && s.proc.run.k < |s.rows| ==>
      |s'.rows| == |s.rows| && s'.rows[k].status == FateIn(g, s, k)
  }

  lemma OneRowMeets(g: Group, s: MemberState, s': MemberState, r: Row, k: nat)
    requires s.proc.Punishing? && s.proc.run.k < |s.rows| && s.proc.run.pc != Complete
    requires s'.rows == s.rows[s.proc.run.k := r] && r.status == FateIn(g, s, s.proc.run.k)
    ensures Meets(g, s, s', k)
  {
  }

  lemma SameRowsMeet(g: Group, s: MemberState, s': MemberState, k: nat)
    requires s.proc.Punishing? && s.proc.run.k < |s.rows| && s'.rows == s.rows
    requires FateIn(g, s, s.proc.run.k) == s.rows[s.proc.run.k].status && s.proc.run.pc != Complete
    ensures Meets(g, s, s', k)
  {
  }

  lemma PreflightMeets(id: MemberId, g: Group, now: int, s: MemberState, env: Env, k: nat)
    requires s.proc.Punishing? && s.proc.run.k < |s.rows|
    requires var pc := s.proc.run.pc; pc == AddWorkflow || pc == ReadRow || pc == Preflight || pc == CheckNewer || pc == MarkSkipped
    ensures Meets(g, s, PreflightStep(id, g, now, s, s.proc.run, s.rows[s.proc.run.k], env), k)
  {
    hide InsertWorkflow, StepSkipped, EnterAction, ReadSnapshot, NewerManual, Meets, Noted, MarkKickBanned, StepDone;
    var (run, r) := (s.proc.run, s.rows[s.proc.run.k]);
    var s' := PreflightStep(id, g, now, s, run, r, env);
    ReadsWriteNothing(id.user, s, run, r, now);
    if run.pc == AddWorkflow {
      UnmovedByWorkflow(g, r);
      OneRowMeets(g, s, s', InsertWorkflow(g, r), k);
    } else if run.pc == MarkSkipped {
      Moved(r);
      OneRowMeets(g, s, s', StepSkipped(r), k);
    } else {
      SameRowsMeet(g, s, s', k);
    }
  }

  lemma ActionMeets(g: Group, now: int, s: MemberState, env: Env, k: nat)
    requires s.proc.Punishing? && s.proc.run.k < |s.rows|
    ensures var (run, r) := (s.proc.run, s.rows[s.proc.run.k]);
      && (run.pc == PreDelete || run.pc == MarkPreDeleted ==> Meets(g, s, DeleteStep(now, s, run, r, env).0, k))
      && (run.pc == MainCall ==> Meets(g, s, DoMainCall(now, s, run, r, env).0, k))
  {
    hide StepDeleted, StepActed, Approach, Noted, Meets, MainCallOf, InsertWorkflow, MarkKickBanned, UntilDate;
    var (run, r) := (s.proc.run, s.rows[s.proc.run.k]);
    ReadsWriteNothing(0, Put(s, run.k, StepDeleted(r)), run, r, now);
    if run.pc == PreDelete {
      SameRowsMeet(g, s, DeleteStep(now, s, run, r, env).0, k);
    } else if run.pc == MarkPreDeleted {
      UnmovedSteps(r);
      OneRowMeets(g, s, DeleteStep(now, s, run, r, env).0, StepDeleted(r), k);
    } else if run.pc == MainCall {
      var until := UntilDate(now, run.seconds);
      UnmovedByCall(r, env.outcome, until);
      var s' := DoMainCall(now, s, run, r, env).0;
      if s'.rows == s.rows {
        SameRowsMeet(g, s, s', k);
      } else {
        OneRowMeets(g, s, s', Noted(r, env.outcome, until), k);
      }
    }
  }

  lemma StartMeets(g: Group, now: int, s: MemberState, k: nat)
    requires s.proc.Punishing? && s.proc.run.k < |s.rows|
    requires var pc := s.proc.run.pc; pc == StartCall || pc == CheckDeadline || pc == MarkFailed
    ensures Meets(g, s, StartStep(g, now, s, s.proc.run, s.rows[s.proc.run.k]), k)
  {
    hide StartPermission, FailPunishment, RejectPunishment, Until, Meets;
    var (run, r) := (s.proc.run, s.rows[s.proc.run.k]);
    var s' := StartStep(g, now, s, run, r);
    UnmovedStart(g, r, Until(r));
    if run.pc == MarkFailed {
      MovedToFailed(r);
      OneRowMeets(g, s, s', FailPunishment(r), k);
    } else if run.pc == StartCall && StartPermission(g, r, Until(r)).Some? {
      OneRowMeets(g, s, s', StartPermission(g, r, Until(r)).value, k);
    } else {
      SameRowsMeet(g, s, s', k);
    }
  }

  lemma KickMeets(g: Group, s: MemberState, env: Env, k: nat)
    requires s.proc.Punishing? && s.proc.run.k < |s.rows|
    requires var pc := s.proc.run.pc; pc == KickRead || pc == KickBan || pc == KickMark || pc == KickUnban || pc == KickConfirm
    ensures Meets(g, s, KickStep(s, s.proc.run, s.rows[s.proc.run.k], env).0, k)
  {
    hide Noted, MarkKickBanned, InsertWorkflow, Meets;
    var (run, r) := (s.proc.run, s.rows[s.proc.run.k]);
    var s' := KickStep(s, run, r, env).0;
    UnmovedByCall(r, env.outcome, None);
    UnmovedByKick(r);
    if run.pc == KickBan {
      OneRowMeets(g, s, s', Noted(r, env.outcome, None), k);
    } else if run.pc == KickMark {
      OneRowMeets(g, s, s', MarkKickBanned(r), k);
    } else if run.pc == KickConfirm && env.chatStatus != Kicked {
      OneRowMeets(g, s, s', r.(unbanned := true), k);
    } else {
      SameRowsMeet(g, s, s', k);
    }
  }

  lemma TakeoverMeets(g: Group, rows: seq<Row>, sessions: seq<Session>, n: nat, k: nat)
    requires n < |rows| && k < |rows|
    ensures var t := CompleteTakeover(g, rows, sessions, n);
      && (t.Some? <==> AuthorityHolds(g, rows[n]))
      && (t.Some? ==>
            && |t.value.0| == |rows|
            && (t.value.0[k].status ==
                  if rows[n].source == Manual && k < n && rows[k].status == Pending then Skipped else rows[k].status))
  {
    hide StepActed, StepSkipped, CancelAllBut, StepDone, StepDeleted;
    UnmovedSteps(rows[n]);
    Moved(rows[k]);
  }

  lemma CommitMeets(g: Group, s: MemberState, k: nat)
    requires s.proc.Punishing? && s.proc.run.k < |s.rows| && s.proc.run.pc == Complete
    ensures Meets(g, s, DoComplete(g, s, s.proc.run, s.rows[s.proc.run.k]), k)
  {
    hide CompleteTakeover, StepActed, StepDeleted, AuthorityHolds;
    UnmovedSteps(s.rows[s.proc.run.k]);
    if k < |s.rows| {
      TakeoverMeets(g, s.rows, s.sessions, s.proc.run.k, k);
    }
  }

  lemma TailMeets(g: Group, s: MemberState, env: Env, k: nat)
    requires s.proc.Punishing? && s.proc.run.k < |s.rows| && s.rows[s.proc.run.k].workflow
    requires var pc := s.proc.run.pc; pc == BanDelete || pc == MarkBanDeleted || pc == Notify || pc == MarkDone || pc == Reject
    ensures Meets(g, s, TailStep(s, s.proc.run, s.rows[s.proc.run.k], env).0, k)
  {
    hide StepDeleted, StepActed, StepDone, StepSkipped, RejectPunishment, FailPunishment, NewerManual, Meets;
    var (run, r) := (s.proc.run, s.rows[s.proc.run.k]);
    var s' := TailStep(s, run, r, env).0;
    if run.pc == MarkBanDeleted {
      UnmovedSteps(r);
      OneRowMeets(g, s, s', StepDeleted(r), k);
    } else if run.pc == MarkDone {
      Moved(r);
      OneRowMeets(g, s, s', StepDone(r), k);
    } else if run.pc == Reject {
      MovedToFailed(r);
      OneRowMeets(g, s, s', RejectPunishment(r), k);
    } else {
      SameRowsMeet(g, s, s', k);
    }
  }

  lemma SenderMeets(g: Group, s: MemberState, env: Env, k: nat)
    requires s.proc.Punishing? && s.proc.run.k < |s.rows|
    requires var pc := s.proc.run.pc; pc == SenderDelete || pc == SenderMark || pc == SenderNotice || pc == SenderAct
    ensures Meets(g, s, SenderStep(s, s.proc.run, s.rows[s.proc.run.k], env).0, k)
  {
    hide StepDeleted, StepActed, AfterSenderDelete, Meets;
    var (run, r) := (s.proc.run, s.rows[s.proc.run.k]);
    var s' := SenderStep(s, run, r, env).0;
    UnmovedSteps(r);
    ReadsWriteNothing(0, Put(s, run.k, StepDeleted(r)), run, r, 0);
    if run.pc == SenderMark {
      OneRowMeets(g, s, s', StepDeleted(r), k);
    } else if run.pc == SenderAct {
      OneRowMeets(g, s, s', StepActed(r), k);
    } else {
      SameRowsMeet(g, s, s', k);
    }
  }

  lemma PunishMeets(id: MemberId, g: Group, now: int, s: MemberState, env: Env, k: nat)
    requires s.proc.Punishing? && s.proc.run.k < |s.rows|
    requires PastRead(s.proc.run.pc) ==> s.rows[s.proc.run.k].workflow
    ensures Meets(g, s, PunishStep(id, g, now, s, env).0, k)
  {
    hide Meets, PreflightStep, DeleteStep, StartStep, DoMainCall, KickStep, DoComplete, TailStep, SenderStep;
    match s.proc.run.pc {
      case AddWorkflow | ReadRow | Preflight | CheckNewer | MarkSkipped => PreflightMeets(id, g, now, s, env, k);
      case PreDelete | MarkPreDeleted | MainCall => ActionMeets(g, now, s, env, k);
      case StartCall | CheckDeadline | MarkFailed => StartMeets(g, now, s, k);
      case KickRead | KickBan | KickMark | KickUnban | KickConfirm => KickMeets(g, s, env, k);
      case Complete => CommitMeets(g, s, k);
      case BanDelete | MarkBanDeleted | Notify | MarkDone | Reject => TailMeets(g, s, env, k);
      case SenderDelete | SenderMark | SenderNotice | SenderAct => SenderMeets(g, s, env, k);
    }
  }

  lemma OthersLeave(id: MemberId, g: Group, now: int, s: MemberState, l: Label, k: nat)
    requires !(l.Go? && s.proc.Punishing?) && k < |s.rows|
    ensures k < |Next(id, g, now, s, l).0.rows| && Next(id, g, now, s, l).0.rows[k].status == s.rows[k].status
  {
    hide PunishStep, FinishStep, CreateSelfSession, CreateSession, TakenOver, NewerPermission;
    if l.Go? && s.proc.Finishing? {
      FinishKeepsRows(g, s, now, l.env);
    }
  }

  // ---------------------------------------------------------------- every move

  /** The complete account of a punishment's status: after any move, in any reachable state,
      it is exactly its fate. In particular only three things end a pending punishment: its
      own program, the commit of a newer manual permission action, and a loss of approval. */
  lemma StatusIsFate(w: World, m: Move, id: MemberId, k: nat)
    requires Reachable(w) && k < |RowsOf(w, id)|
    ensures k < |RowsOf(Apply(w, m), id)| && RowsOf(Apply(w, m), id)[k].status == Fate(w, m, id, k)
  {
    hide Next, Inv, Meets;
    ReachableInv(w);
    var (s, g) := (MemberOf(w, id), GroupOf(w, id.chat));
    if m.Step? && m.id == id {
      if m.l.Go? && s.proc.Punishing? {
        FatePunish(w, m, id, k);
      } else {
        OthersLeave(id, g, w.now, s, m.l, k);
      }
    } else if m.Authorize? {
      FateAuthorize(w, m, id, k);
    }
  }

  lemma FatePunish(w: World, m: Move, id: MemberId, k: nat)
    requires Inv(w) && k < |RowsOf(w, id)| && m.Step? && m.id == id && m.l.Go? && MemberOf(w, id).proc.Punishing?
    ensures k < |RowsOf(Apply(w, m), id)| && RowsOf(Apply(w, m), id)[k].status == Fate(w, m, id, k)
  {
    hide MemberInv, PunishStep, FateIn, RowInv;
    InvOfMember(w, id);
    var (s, g) := (MemberOf(w, id), GroupOf(w, id.chat));
    Facts(id.user, g.epoch, w.now, s);
    PunishMeets(id, g, w.now, s, m.l.env, k);
    FateOfFinished(g, s, k);
  }

  lemma FateOfFinished(g: Group, s: MemberState, k: nat)
    requires s.proc.Punishing? && k < |s.rows| && s.proc.run.k < |s.rows|
    ensures s.rows[k].status != Pending ==> FateIn(g, s, k) == s.rows[k].status
  {
  }

  lemma FateAuthorize(w: World, m: Move, id: MemberId, k: nat)
    requires k < |RowsOf(w, id)| && m.Authorize?
    ensures k < |RowsOf(Apply(w, m), id)| && RowsOf(Apply(w, m), id)[k].status == Fate(w, m, id, k)
  {
    hide RevokeRow, ReleaseSessions, Authorized;
    RevokedStatus(RowsOf(w, id)[k], w.now);
  }

  lemma RevokedStatus(r: Row, now: int)
    ensures RevokeRow(r, now).status == if r.status == Pending then Skipped else r.status
  {
    if r.status != Pending {
      assert RevokeRow(r, now) == r;
    } else if r.workflow && r.started && Restricting(r.decision.action) {
      assert RevokeRow(r, now) == r.(status := Skipped, releaseNeeded := true, releaseAt := Some(now), revoked := true);
    } else {
      assert RevokeRow(r, now) == r.(status := Skipped);
    }
  }
}
