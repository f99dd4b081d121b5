/** What one step can do to each row and session, and what its Telegram call implies. */
module Evolution {
  import opened Domain
  import opened Tables
  import opened Machine
  import opened Invariant
  import opened Preservation
  import opened StepSafety

  // ---------------------------------------------------------------- rows

  /** The step records a finished release of row i: the member was restored, or a
      newer permission action or session was found. */
  predicate Settles(s: MemberState, l: Label, i: nat) {
    l.Go? && s.proc.ReleasingRow? && s.proc.row == i
    && (s.proc.rpc == RecordRelease(Restored) || s.proc.rpc == RecordRelease(Superseded))
  }

  /** The running kick of row i waits for the membership read after its unban. */
  predicate AwaitsConfirm(s: MemberState, i: nat) {
    s.proc.Punishing? && s.proc.run.k == i && s.proc.run.pc == KickConfirm
  }

  predicate Confirms(s: MemberState, l: Label, i: nat) {
    l.Go? && AwaitsConfirm(s, i) && l.env.chatStatus != Kicked
  }

  /** The step is the commit at the end of the action of row i. */
  predicate Commits(s: MemberState, l: Label, i: nat) {
    l.Go? && s.proc.Punishing? && s.proc.run.k == i && s.proc.run.pc == Complete
  }

  /** A finished row keeps its outcome; a due release is dropped only by a
      finished release or by a rejection before any effect. */
  predicate RowStep(r: Row, r': Row, settles: bool, confirms: bool, commits: bool) {
    && Evolves(r, r')
    && (r.status != Pending ==>
          r'.started == r.started && r'.acted == r.acted && r'.deleted == r.deleted && r'.rejected == r.rejected)
    && (r.releaseNeeded && !settles ==> r'.releaseNeeded || r'.rejected)
    && (!r.settled && r'.settled ==> settles)
    && (!r.unbanned && r'.unbanned ==> confirms)
    && (!r.acted && r'.acted && Permission(r.decision.action) ==> commits)
  }

  // ---------------------------------------------------------------- sessions

  function Rank(st: SessionStatus): nat {
    match st
    case VPending => 0
    case Completing => 1
    case Expiring => 1
    case Releasing => 2
    case Expired => 3
    case _ => 4
  }

  predicate SessionStep(v: Session, v': Session) {
    && v'.own == v.own && v'.answer == v.answer && v'.failAction == v.failAction && v'.createdAt == v.createdAt
    && (v'.status == v.status || Rank(v.status) < Rank(v'.status))
    && (v'.status == Verified && v.status != Verified ==> v.status == Completing)
    && v.attempts <= v'.attempts && (v.answered ==> v'.answered)
    && (forall e :: e in v.answers ==> e in v'.answers && v'.answers[e] == v.answers[e])
  }

  ghost predicate Steps(s: MemberState, s': MemberState, l: Label) {
    && |s.rows| <= |s'.rows| && |s.sessions| <= |s'.sessions|
    && (forall i :: 0 <= i < |s.rows| ==> RowStep(s.rows[i], s'.rows[i], Settles(s, l, i), Confirms(s, l, i), Commits(s, l, i)))
    && (forall t :: 0 <= t < |s.sessions| ==> SessionStep(s.sessions[t], s'.sessions[t]))
  }

  lemma Stays(s: MemberState, s': MemberState, l: Label)
    requires s'.rows == s.rows && s'.sessions == s.sessions
    ensures Steps(s, s', l)
  {
  }

  lemma OneRow(s: MemberState, s': MemberState, l: Label, k: nat, r: Row)
    requires k < |s.rows| && s'.rows == s.rows[k := r] && s'.sessions == s.sessions
    requires RowStep(s.rows[k], r, Settles(s, l, k), Confirms(s, l, k), Commits(s, l, k))
    ensures Steps(s, s', l)
  {
  }

  // ---------------------------------------------------------------- row by row

  lemma DeletedStep(r: Row)
    ensures RowStep(r, StepDeleted(r), false, false, false)
  {
    if r.status != Pending {
      assert StepDeleted(r) == r;
    }
  }

  lemma DoneStep(r: Row)
    ensures RowStep(r, StepDone(r), false, false, false)
  {
    if r.status != Pending {
      assert StepDone(r) == r;
    }
  }

  lemma SkippedStep(r: Row)
    ensures RowStep(r, StepSkipped(r), false, false, false)
  {
    if r.status != Pending {
      assert StepSkipped(r) == r;
    }
  }

  lemma FailedStep(r: Row)
    ensures RowStep(r, FailPunishment(r), false, false, false)
  {
    if r.status != Pending {
      assert FailPunishment(r) == r;
    }
  }

  lemma WorkflowStep(g: Group, r: Row)
    ensures RowStep(r, InsertWorkflow(g, r), false, false, false)
  {
  }

  lemma KickBannedStep(r: Row)
    ensures RowStep(r, MarkKickBanned(r), false, false, false)
  {
  }

  lemma RejectedStep(r: Row)
    ensures RowStep(r, RejectPunishment(r), false, false, false)
  {
    if r.status != Pending {
      assert RejectPunishment(r) == r;
    }
  }

  lemma UnbannedStep(r: Row)
    ensures RowStep(r, r.(unbanned := true), false, true, false)
  {
  }

  lemma StartsStep(g: Group, r: Row, until: Option<int>)
    ensures StartPermission(g, r, until).Some? ==> RowStep(r, StartPermission(g, r, until).value, false, false, false)
  {
  }

  lemma NotedStep(r: Row, o: Outcome, u: Option<int>)
    ensures RowStep(r, Noted(r, o, u), false, false, false)
  {
    if o == Rejected {
      assert Noted(r, o, u) == r;
    }
  }

  lemma ActedStep(r: Row)
    ensures RowStep(r, StepActed(r), false, false, true)
    ensures !Permission(r.decision.action) ==> RowStep(r, StepActed(r), false, false, false)
  {
    if r.status == Pending {
      assert StepActed(r) == r.(acted := true);
    } else {
      assert StepActed(r) == r;
    }
  }

  // ---------------------------------------------------------------- punishment programs

  lemma PreflightSteps(id: MemberId, g: Group, now: int, s: MemberState, env: Env)
    requires MemberInv(id.user, g.epoch, now, s) && s.proc.Punishing? && s.proc.run.k < |s.rows|
    requires s.proc.run.pc != KickConfirm && s.proc.run.pc != Complete
    ensures Steps(s, PreflightStep(id, g, now, s, s.proc.run, s.rows[s.proc.run.k], env), Go(env))
  {
    hide MemberInv, Steps, RowStep;
    var run := s.proc.run;
    var r := s.rows[run.k];
    var s' := PreflightStep(id, g, now, s, run, r, env);
    if run.pc == AddWorkflow {
      WorkflowStep(g, r);
      OneRow(s, s', Go(env), run.k, InsertWorkflow(g, r));
    } else if run.pc == MarkSkipped {
      SkippedStep(r);
      OneRow(s, s', Go(env), run.k, StepSkipped(r));
    } else {
      Stays(s, s', Go(env));
    }
  }

  lemma DeleteSteps(user: int, epoch: nat, now: int, s: MemberState, env: Env)
    requires MemberInv(user, epoch, now, s) && s.proc.Punishing? && s.proc.run.k < |s.rows|
    requires s.proc.run.pc != KickConfirm && s.proc.run.pc != Complete
    ensures Steps(s, DeleteStep(now, s, s.proc.run, s.rows[s.proc.run.k], env).0, Go(env))
  {
    hide MemberInv, Steps, RowStep;
    var run := s.proc.run;
    var r := s.rows[run.k];
    var d := DeleteStep(now, s, run, r, env).0;
    if run.pc == PreDelete {
      Stays(s, d, Go(env));
    } else {
      DeletedStep(r);
      OneRow(s, d, Go(env), run.k, StepDeleted(r));
    }
  }

  lemma CallSteps(user: int, epoch: nat, now: int, s: MemberState, env: Env)
    requires MemberInv(user, epoch, now, s) && s.proc.Punishing? && s.proc.run.k < |s.rows|
    requires s.proc.run.pc != KickConfirm && s.proc.run.pc != Complete
    ensures Steps(s, DoMainCall(now, s, s.proc.run, s.rows[s.proc.run.k], env).0, Go(env))
  {
    hide MemberInv, Steps, RowStep;
    var run := s.proc.run;
    var r := s.rows[run.k];
    NotedStep(r, env.outcome, UntilDate(now, run.seconds));
    var m := DoMainCall(now, s, run, r, env).0;
    if MainCallOf(r).Some? && PermissionCall(MainCallOf(r).value) {
      OneRow(s, m, Go(env), run.k, Noted(r, env.outcome, UntilDate(now, run.seconds)));
    } else {
      Stays(s, m, Go(env));
    }
  }

  lemma StartCallSteps(g: Group, now: int, s: MemberState, run: Run, r: Row, env: Env)
    requires s.proc.Punishing? && run.k < |s.rows| && r == s.rows[run.k]
    requires run == s.proc.run && run.pc == StartCall
    ensures Steps(s, StartStep(g, now, s, run, r), Go(env))
  {
    hide Steps, RowStep, StartPermission, Until;
    var s' := StartStep(g, now, s, run, r);
    StartsStep(g, r, Until(r));
    var r' := StartPermission(g, r, Until(r));
    if r'.Some? {
      OneRow(s, s', Go(env), run.k, r'.value);
    } else {
      Stays(s, s', Go(env));
    }
  }

  lemma StartSteps(g: Group, now: int, s: MemberState, run: Run, r: Row, env: Env)
    requires s.proc.Punishing? && run.k < |s.rows| && r == s.rows[run.k]
    requires run == s.proc.run && run.pc != KickConfirm && run.pc != Complete
    ensures Steps(s, StartStep(g, now, s, run, r), Go(env))
  {
    hide Steps, RowStep, FailPunishment;
    if run.pc == StartCall {
      StartCallSteps(g, now, s, run, r, env);
    } else if run.pc == MarkFailed {
      FailedStep(r);
      OneRow(s, StartStep(g, now, s, run, r), Go(env), run.k, FailPunishment(r));
    } else {
      Stays(s, StartStep(g, now, s, run, r), Go(env));
    }
  }

  lemma KickSteps(user: int, epoch: nat, now: int, s: MemberState, env: Env)
    requires MemberInv(user, epoch, now, s) && s.proc.Punishing? && s.proc.run.k < |s.rows|
    requires s.proc.run.pc != KickConfirm && s.proc.run.pc != Complete
    ensures Steps(s, KickStep(s, s.proc.run, s.rows[s.proc.run.k], env).0, Go(env))
  {
    hide MemberInv, Steps, RowStep;
    var run := s.proc.run;
    var r := s.rows[run.k];
    var s' := KickStep(s, run, r, env).0;
    if run.pc == KickBan {
      NotedStep(r, env.outcome, None);
      OneRow(s, s', Go(env), run.k, Noted(r, env.outcome, None));
    } else if run.pc == KickMark {
      KickBannedStep(r);
      OneRow(s, s', Go(env), run.k, MarkKickBanned(r));
    } else {
      Stays(s, s', Go(env));
    }
  }

  lemma KickConfirmSteps(user: int, epoch: nat, now: int, s: MemberState, env: Env)
    requires MemberInv(user, epoch, now, s) && s.proc.Punishing? && s.proc.run.k < |s.rows|
    requires s.proc.run.pc == KickConfirm
    ensures Steps(s, KickStep(s, s.proc.run, s.rows[s.proc.run.k], env).0, Go(env))
  {
    hide MemberInv, Steps, RowStep;
    var run := s.proc.run;
    var r := s.rows[run.k];
    var s' := KickStep(s, run, r, env).0;
    if env.chatStatus == Kicked {
      Stays(s, s', Go(env));
    } else {
      UnbannedStep(r);
      OneRow(s, s', Go(env), run.k, r.(unbanned := true));
    }
  }

  lemma TailSteps(user: int, epoch: nat, now: int, s: MemberState, env: Env)
    requires MemberInv(user, epoch, now, s) && s.proc.Punishing? && s.proc.run.k < |s.rows|
    requires s.proc.run.pc != KickConfirm && s.proc.run.pc != Complete
    ensures Steps(s, TailStep(s, s.proc.run, s.rows[s.proc.run.k], env).0, Go(env))
  {
    hide MemberInv, Steps, RowStep;
    var run := s.proc.run;
    var r := s.rows[run.k];
    var s' := TailStep(s, run, r, env).0;
    DeletedStep(r);
    DoneStep(r);
    RejectedStep(r);
    match run.pc {
      case MarkBanDeleted => OneRow(s, s', Go(env), run.k, StepDeleted(r));
      case MarkDone => OneRow(s, s', Go(env), run.k, StepDone(r));
      case Reject => OneRow(s, s', Go(env), run.k, RejectPunishment(r));
      case _ => Stays(s, s', Go(env));
    }
  }

  lemma SenderSteps(user: int, epoch: nat, now: int, s: MemberState, env: Env)
    requires MemberInv(user, epoch, now, s) && s.proc.Punishing? && s.proc.run.k < |s.rows|
    requires s.proc.run.pc != KickConfirm && s.proc.run.pc != Complete
    ensures Steps(s, SenderStep(s, s.proc.run, s.rows[s.proc.run.k], env).0, Go(env))
  {
    hide MemberInv, Steps, RowStep;
    Facts(user, epoch, now, s);
    var run := s.proc.run;
    var r := s.rows[run.k];
    var s' := SenderStep(s, run, r, env).0;
    DeletedStep(r);
    ActedStep(r);
    match run.pc {
      case SenderMark => OneRow(s, s', Go(env), run.k, StepDeleted(r));
      case SenderAct => OneRow(s, s', Go(env), run.k, StepActed(r));
      case _ => Stays(s, s', Go(env));
    }
  }

  lemma TakeoverSteps(g: Group, s: MemberState, run: Run, env: Env)
    requires s.proc.Punishing? && run.k < |s.rows|
    requires AuthorityHolds(g, s.rows[run.k]) && Permission(s.rows[run.k].decision.action)
    requires run == s.proc.run && run.pc == Complete
    ensures Steps(s, DoComplete(g, s, run, s.rows[run.k]), Go(env))
  {
    var s' := DoComplete(g, s, run, s.rows[run.k]);
    hide RowStep, SessionStep;
    forall i | 0 <= i < |s.rows| ensures RowStep(s.rows[i], s'.rows[i], Settles(s, Go(env), i), Confirms(s, Go(env), i), Commits(s, Go(env), i)) {
      SkippedStep(s.rows[i]);
      ActedStep(s.rows[i]);
      UnchangedRow(s.rows[i]);
    }
    forall t | 0 <= t < |s.sessions| ensures SessionStep(s.sessions[t], s'.sessions[t]) {
      CancelledSession(s.sessions[t]);
    }
  }

  lemma UnchangedRow(r: Row)
    ensures RowStep(r, r, false, false, false)
  {
  }

  lemma CancelledSession(v: Session)
    ensures SessionStep(v, v)
    ensures Active(v) ==> SessionStep(v, v.(status := Cancelled))
  {
  }

  lemma CompleteSteps(g: Group, s: MemberState, run: Run, env: Env)
    requires s.proc.Punishing? && run.k < |s.rows|
    requires run == s.proc.run && run.pc == Complete
    ensures Steps(s, DoComplete(g, s, run, s.rows[run.k]), Go(env))
  {
    hide Steps, RowStep;
    var r := s.rows[run.k];
    if Permission(r.decision.action) && AuthorityHolds(g, r) {
      TakeoverSteps(g, s, run, env);
    } else if Permission(r.decision.action) {
      Stays(s, DoComplete(g, s, run, r), Go(env));
    } else {
      ActedStep(r);
      OneRow(s, DoComplete(g, s, run, r), Go(env), run.k, StepActed(r));
    }
  }

  lemma PunishSteps(id: MemberId, g: Group, now: int, s: MemberState, env: Env)
    requires MemberInv(id.user, g.epoch, now, s) && s.proc.Punishing?
    ensures Steps(s, PunishStep(id, g, now, s, env).0, Go(env))
  {
    hide MemberInv, Steps, PreflightStep, DeleteStep, StartStep, DoMainCall, KickStep, DoComplete, TailStep, SenderStep;
    Facts(id.user, g.epoch, now, s);
    match s.proc.run.pc {
      case AddWorkflow | ReadRow | Preflight | CheckNewer | MarkSkipped => PreflightSteps(id, g, now, s, env);
      case PreDelete | MarkPreDeleted => DeleteSteps(id.user, g.epoch, now, s, env);
      case StartCall | CheckDeadline | MarkFailed => StartSteps(g, now, s, s.proc.run, s.rows[s.proc.run.k], env);
      case MainCall => CallSteps(id.user, g.epoch, now, s, env);
      case KickRead | KickBan | KickMark | KickUnban => KickSteps(id.user, g.epoch, now, s, env);
      case KickConfirm => KickConfirmSteps(id.user, g.epoch, now, s, env);
      case Complete => CompleteSteps(g, s, s.proc.run, env);
      case BanDelete | MarkBanDeleted | Notify | MarkDone | Reject => TailSteps(id.user, g.epoch, now, s, env);
      case SenderDelete | SenderMark | SenderNotice | SenderAct => SenderSteps(id.user, g.epoch, now, s, env);
    }
  }

  // ---------------------------------------------------------------- the other programs

  lemma SessionsOnly(s: MemberState, s': MemberState, l: Label)
    requires s'.rows == s.rows && |s.sessions| <= |s'.sessions|
    requires forall t :: 0 <= t < |s.sessions| ==> SessionStep(s.sessions[t], s'.sessions[t])
    ensures Steps(s, s', l)
  {
  }

  lemma FinishSteps(user: int, g: Group, now: int, s: MemberState, env: Env)
    requires MemberInv(user, g.epoch, now, s) && s.proc.Finishing?
    ensures Steps(s, FinishStep(g, s, now, env).0, Go(env))
  {
    SessionsOnly(s, FinishStep(g, s, now, env).0, Go(env));
  }

  lemma AnsweredStep(v: Session, owner: bool, submitted: int, event: Option<int>, now: int)
    ensures SessionStep(v, v) && SessionStep(v, Answer(v, owner, submitted, event, now).0)
  {
    hide Answer;
    AnswerCases(v, owner, submitted, event, now);
  }

  lemma AnswerSteps(user: int, epoch: nat, now: int, s: MemberState, env: Env)
    requires MemberInv(user, epoch, now, s)
    requires s.proc.AnswerRead? || s.proc.AnswerBusy? || s.proc.AnswerWrite?
    ensures Steps(s, AnswerStep(s, now), Go(env))
  {
    hide MemberInv, SessionStep, Answer, Steps;
    var s' := AnswerStep(s, now);
    forall t | 0 <= t < |s.sessions| ensures SessionStep(s.sessions[t], s'.sessions[t]) {
      AnsweredStep(s.sessions[t], false, 0, None, now);
      if s.proc.AnswerWrite? {
        AnsweredStep(s.sessions[t], s.proc.owner, s.proc.submitted, s.proc.event, now);
      }
    }
    SessionsOnly(s, s', Go(env));
  }

  lemma ReleaseSteps(user: int, epoch: nat, now: int, s: MemberState, env: Env)
    requires MemberInv(user, epoch, now, s) && s.proc.ReleasingRow?
    ensures Steps(s, ReleaseStep(s, now, env).0, Go(env))
  {
    hide MemberInv, RowStep, SessionStep;
    var s' := ReleaseStep(s, now, env).0;
    forall i | 0 <= i < |s.rows| ensures RowStep(s.rows[i], s'.rows[i], Settles(s, Go(env), i), Confirms(s, Go(env), i), Commits(s, Go(env), i)) {
      UnchangedRow(s.rows[i]);
      ReleasedRow(s.rows[i], now);
    }
    forall t | 0 <= t < |s.sessions| ensures SessionStep(s.sessions[t], s'.sessions[t]) {
      CancelledSession(s.sessions[t]);
    }
  }

  lemma ReleasedRow(r: Row, now: int)
    ensures RowStep(r, PostponeRelease(r, now), false, false, false) && RowStep(r, FinishRelease(r), true, false, false)
  {
  }

  lemma ContinueSteps(id: MemberId, g: Group, now: int, s: MemberState, env: Env)
    requires MemberInv(id.user, g.epoch, now, s)
    ensures Steps(s, Continue(id, g, now, s, env).0, Go(env))
  {
    hide MemberInv, PunishStep, AnswerStep, FinishStep, ReleaseStep;
    match s.proc {
      case Punishing(_) => PunishSteps(id, g, now, s, env);
      case Finishing(_, _) => FinishSteps(id.user, g, now, s, env);
      case AnswerRead(_, _, _, _) | AnswerBusy(_, _, _, _) | AnswerWrite(_, _, _, _) =>
        AnswerSteps(id.user, g.epoch, now, s, env);
      case ReleasingRow(_, _) => ReleaseSteps(id.user, g.epoch, now, s, env);
      case _ => OtherSteps(id, g, now, s, env);
    }
  }

  lemma OtherSteps(id: MemberId, g: Group, now: int, s: MemberState, env: Env)
    requires !s.proc.Punishing? && !s.proc.Finishing? && !s.proc.ReleasingRow?
    requires !s.proc.AnswerRead? && !s.proc.AnswerBusy? && !s.proc.AnswerWrite?
    ensures Steps(s, Continue(id, g, now, s, env).0, Go(env))
  {
    hide RowStep, SessionStep;
    var s' := Continue(id, g, now, s, env).0;
    forall i | 0 <= i < |s.rows| ensures RowStep(s.rows[i], s'.rows[i], Settles(s, Go(env), i), Confirms(s, Go(env), i), Commits(s, Go(env), i)) {
      UnchangedRow(s.rows[i]);
    }
    forall t | 0 <= t < |s.sessions| ensures SessionStep(s.sessions[t], s'.sessions[t]) {
      CancelledSession(s.sessions[t]);
      ExternalSession(s.sessions[t]);
    }
  }

  lemma ExternalSession(v: Session)
    ensures v.status == Expired ==> SessionStep(v, v.(status := Cancelled))
  {
  }

  lemma NextSteps(id: MemberId, g: Group, now: int, s: MemberState, l: Label)
    requires MemberInv(id.user, g.epoch, now, s)
    ensures Steps(s, Next(id, g, now, s, l).0, l)
  {
    if l.Go? {
      ContinueSteps(id, g, now, s, l.env);
    } else {
      hide MemberInv;
      Stays(s, Next(id, g, now, s, l).0, l);
    }
  }
}
