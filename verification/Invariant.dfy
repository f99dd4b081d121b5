/** The inductive invariant of one member's state, in every interleaving of the
    lock holders with each other and with the writers that take no lock. */
module Invariant {
  import opened Domain
  import opened Tables
  import opened Machine

  // ---------------------------------------------------------------- stored rows

  ghost predicate RowInv(user: int, epoch: nat, now: int, r: Row) {
    var a := r.decision.action;
    && r.createdAt <= now
    && (r.key.SelfUnmute? ==> r.decision == Decision(Unmute, false, 0, SelfVerification) && r.source == Manual)
    && (r.decision.action == Ban && r.message > 0 ==> r.decision.delete)
    && (r.workflow ==> r.version <= epoch)
    && (r.status == Pending && r.workflow ==> r.version == epoch)
    && (r.started ==> r.workflow && Permission(a))
    && (r.sent ==> r.started)
    && (r.acted && Permission(a) ==> r.sent)
    && (r.acted ==> r.status != Failed)
    && (r.rejected ==> r.status == Failed && !r.sent)
    && (r.status == Failed && r.sent ==> TimedMute(r.decision) && Deadline(r) - now < SECOND)
    && (r.revoked ==> r.status == Skipped && Restricting(a))
    && (Owes(r) ==> r.releaseNeeded)
    && (r.releaseNeeded ==> r.releaseAt.Some? && Restricting(a))
    && (r.kickBanned ==> r.sent && a == Kick)
    && (r.unbanned ==> r.kickBanned)
    && (r.acted && a == Kick ==> r.unbanned)
    && (r.status == Done && user >= 0 ==> r.acted && (WantsDelete(r) ==> r.deleted))
  }

  /** A restriction that the bot itself has to lift: a timed mute, or work cut off
      by a loss of approval, of which a call may have taken effect since the last
      finished release. */
  predicate Owes(r: Row) {
    r.sent && !r.settled && (TimedMute(r.decision) || r.revoked)
  }

  predicate ManualActed(r: Row) {
    r.source == Manual && r.acted && Permission(r.decision.action)
  }

  ghost predicate RowsInv(user: int, epoch: nat, now: int, rows: seq<Row>) {
    && (forall i :: 0 <= i < |rows| ==> RowInv(user, epoch, now, rows[i]))
    && (forall i, j :: 0 <= i < j < |rows| ==>
          rows[i].createdAt < rows[j].createdAt && rows[i].key != rows[j].key)
    && (forall i, j :: 0 <= i < j < |rows| && ManualActed(rows[j]) ==> rows[i].status != Pending)
  }

  // ---------------------------------------------------------------- stored sessions

  ghost function WrongEvents(v: Session): set<int> {
    set e | e in v.answers && !v.answers[e]
  }

  ghost predicate SessionInv(now: int, v: Session) {
    && v.createdAt <= now
    && v.attempts == |WrongEvents(v)| + v.anonymousWrong
    && v.attempts <= 3
    && (v.status == Completing || v.status == Verified ==> v.answered)
    && (v.status == VPending ==> forall e :: e in v.answers ==> !v.answers[e])
  }

  ghost predicate SessionsInv(now: int, sessions: seq<Session>) {
    && (forall t :: 0 <= t < |sessions| ==> SessionInv(now, sessions[t]))
    && (forall t, u :: 0 <= t < u < |sessions| ==> !(Active(sessions[t]) && Active(sessions[u])))
  }

  /** A self session is verified only after its unmute was carried out. */
  ghost predicate OwnInv(rows: seq<Row>, sessions: seq<Session>) {
    forall t :: 0 <= t < |sessions| && sessions[t].own && sessions[t].status == Verified ==> SelfUnmuteDone(rows, t)
  }

  // ---------------------------------------------------------------- the lock holder

  predicate PastRead(pc: PunishPc) {
    pc != AddWorkflow && pc != ReadRow
  }

  ghost predicate RunInv(user: int, now: int, rows: seq<Row>, run: Run) {
    && run.k < |rows|
    && (run.pc == ReadRow ==> rows[run.k].workflow)
    && (PastRead(run.pc) ==>
          && PunishInv(user, now, rows[run.k], run)
          && forall j :: run.k < j < |rows| ==> !ManualActed(rows[j]))
  }

  /** What a punishment program knows about its row from its own snapshot and
      calls, whatever the unlocked writers did meanwhile. */
  ghost predicate PunishInv(user: int, now: int, r: Row, run: Run) {
    && r.workflow && (r.status == Pending || r.status == Skipped)
    && (run.deleted0 ==> r.deleted) && (run.acted0 ==> r.acted) && (run.started0 ==> r.started)
    && (user < 0 || run.mayHaveActed || (!r.sent && !r.acted && !run.acted0 && !run.deleted0 && !run.started0))
    && (r.revoked ==> r.releaseNeeded)
    && StageInv(user, now, r, run)
  }

  predicate Early(user: int, r: Row, run: Run) {
    user >= 0 && (r.acted ==> run.acted0)
  }

  /** The message delete of a non-ban decision is behind. */
  predicate DeleteBehind(r: Row) {
    r.status == Pending && WantsDelete(r) && r.decision.action != Ban ==> r.deleted
  }

  predicate Midway(user: int, r: Row) {
    user >= 0 && !r.acted && DeleteBehind(r)
  }

  predicate Begun(r: Row) {
    Permission(r.decision.action) ==> r.started && (TimedMute(r.decision) ==> r.releaseNeeded)
  }

  predicate ActionBehind(user: int, r: Row, run: Run) {
    user >= 0 && run.mayHaveActed && (r.status == Pending ==> r.acted) && DeleteBehind(r)
  }

  predicate Finished(user: int, r: Row, run: Run) {
    ActionBehind(user, r, run) && (r.status == Pending && WantsDelete(r) ==> r.deleted)
  }

  ghost predicate StageInv(user: int, now: int, r: Row, run: Run) {
    var a := r.decision.action;
    match run.pc
    case AddWorkflow => true
    case ReadRow => true
    case Preflight => Early(user, r, run)
    case CheckNewer => Early(user, r, run)
    case MarkSkipped => Early(user, r, run)
    case PreDelete => Early(user, r, run)
    case MarkPreDeleted => Early(user, r, run)
    case StartCall => Midway(user, r) && Permission(a)
    case CheckDeadline => Midway(user, r) && Begun(r) && TimedMute(r.decision)
    case MainCall => Midway(user, r) && Begun(r) && a != Kick
    case MarkFailed => user >= 0 && !r.acted && TimedMute(r.decision) && Deadline(r) - now < SECOND
    case KickRead => Midway(user, r) && Begun(r) && a == Kick
    case KickBan => Midway(user, r) && Begun(r) && a == Kick && !r.kickBanned
    case KickMark => Midway(user, r) && Begun(r) && a == Kick && r.sent && run.mayHaveActed
    case KickUnban => Midway(user, r) && Begun(r) && r.kickBanned && run.mayHaveActed
    case KickConfirm => Midway(user, r) && Begun(r) && r.kickBanned && run.mayHaveActed
    case Complete =>
      Midway(user, r) && Begun(r) && run.mayHaveActed && (Permission(a) ==> r.sent) && (a == Kick ==> r.unbanned)
    case BanDelete => ActionBehind(user, r, run) && a == Ban
    case MarkBanDeleted => ActionBehind(user, r, run) && a == Ban
    case Notify => Finished(user, r, run)
    case MarkDone => user < 0 || Finished(user, r, run)
    case Reject => user >= 0 && !r.sent && !r.acted
    case SenderDelete => user < 0 && (a == Warn || a == Delete)
    case SenderMark => user < 0 && (a == Warn || a == Delete)
    case SenderNotice => user < 0 && a == Warn
    case SenderAct => user < 0 && a == Warn
  }

  /** A session program past its check for pending punishments. */
  ghost predicate Cleared(s: MemberState, t: nat) {
    !TakenOver(s.rows) && t < |s.sessions| && Active(s.sessions[t])
  }

  ghost predicate FinishInv(s: MemberState, v: Snapshot, pc: FinishPc) {
    && v.token < |s.sessions|
    && v.status != VPending
    && (!Terminal(v.status) ==> Active(s.sessions[v.token]))
    && (pc != Enter ==> !Terminal(v.status))
    && (pc == Busy || pc == Plan || pc.Perform? ==> !s.sessions[v.token].own)
    && (pc == SelfPlan || pc == SelfBusyCheck || pc == SelfDone ==> s.sessions[v.token].own)
    && (pc == SelfBusyCheck || pc == SelfDone ==> v.status == Completing)
    && (pc == Plan || pc.Perform? ==> Cleared(s, v.token))
    && (pc.Perform? ==> MayEnd(v.status, pc.to))
    && (pc.Write? ==> MayEnd(v.status, pc.to))
    && (pc.Write? && s.sessions[v.token].own && pc.to == Verified ==> SelfUnmuteDone(s.rows, v.token))
  }

  /** The statuses a finishing program may write, by the status it read. */
  predicate MayEnd(from: SessionStatus, to: SessionStatus) {
    match from
    case Completing => to == Verified || to == Cancelled || to == Blocked || to == Left
    case Expiring => to == Expired || to == Cancelled
    case Releasing => to == Cancelled
    case _ => false
  }

  /** A self session waits only for its own unmute, and stays active meanwhile. */
  ghost predicate CallerInv(sessions: seq<Session>, caller: Option<Snapshot>, key: EventKey) {
    caller.Some? ==>
      caller.value.status == Completing && caller.value.token < |sessions|
      && sessions[caller.value.token].own && Active(sessions[caller.value.token])
      && key == SelfUnmute(caller.value.token)
  }

  ghost predicate ProcInv(user: int, now: int, s: MemberState) {
    match s.proc
    case Preparing(plan, caller) =>
      && plan == NewRow(plan.key, plan.message, plan.decision, plan.source, plan.createdAt)
      && (plan.key.SelfUnmute? ==>
            HasKey(s.rows, plan.key)
            || (plan.decision == Decision(Unmute, false, 0, SelfVerification) && plan.source == Manual))
      && (plan.decision.action == Ban && plan.message > 0 ==> plan.decision.delete)
      && CallerInv(s.sessions, caller, plan.key)
    case Punishing(run) =>
      RunInv(user, now, s.rows, run) && CallerInv(s.sessions, run.caller, s.rows[run.k].key)
    case JoinRead(v) => !TakenOver(s.rows)
    case JoinInsert(v) => !TakenOver(s.rows) && forall t :: 0 <= t < |s.sessions| ==> !Active(s.sessions[t])
    case JoinRestrict(t) => Cleared(s, t)
    case Finishing(v, pc) => FinishInv(s, v, pc)
    case ReleasingRow(k, pc) =>
      k < |s.rows| && Restricting(s.rows[k].decision.action)
      && (pc == ReleaseCall || pc == RecordRelease(Restored) ==>
            !NewerPermission(s.rows, s.sessions, s.rows[k].createdAt))
      && (pc == RecordRelease(Superseded) ==>
            NewerPermission(s.rows, s.sessions, s.rows[k].createdAt))
    case _ => true
  }

  ghost predicate MemberInv(user: int, epoch: nat, now: int, s: MemberState) {
    && RowsInv(user, epoch, now, s.rows)
    && SessionsInv(now, s.sessions)
    && OwnInv(s.rows, s.sessions)
    && ProcInv(user, now, s)
    && (forall k :: k in s.due ==> k < |s.rows| && Restricting(s.rows[k].decision.action))
  }
}
