/** The programs that run under a member's lock, one database statement or
    Telegram call at a time. `Next` is total and deterministic: the label
    carries every answer of the environment, and a label that does not apply
    changes nothing. Dropping the program (Crash) stands for a crash, a
    timeout, a failed read or statement, or an error return. */
module Machine {
  import opened Domain
  import opened Tables

  // ---------------------------------------------------------------- program states

  datatype PunishPc =
    | AddWorkflow | ReadRow
    | Preflight | CheckNewer | MarkSkipped
    | PreDelete | MarkPreDeleted
    | StartCall | CheckDeadline | MainCall | MarkFailed
    | KickRead | KickBan | KickMark | KickUnban | KickConfirm
    | Complete | BanDelete | MarkBanDeleted | Notify | MarkDone
    | Reject
    | SenderDelete | SenderMark | SenderNotice | SenderAct

  /** Local variables of punishLocked. The flags with suffix 0 are the snapshot
      `p`; `caller` is the self session waiting for the punishment, if any. */
  datatype Run = Run(k: nat, pc: PunishPc, deleted0: bool, acted0: bool, started0: bool,
                     mayHaveActed: bool, seconds: nat, caller: Option<Snapshot>)

  /** A session as read under the lock. */
  datatype Snapshot = Snapshot(token: nat, status: SessionStatus, kickStarted: bool)

  datatype SessionOp = OpRestore | OpBan | OpMarkKick | OpUnban | OpConfirm

  datatype FinishPc =
    | Enter | Busy | Plan
    | Perform(ops: seq<SessionOp>, to: SessionStatus)
    | SelfPlan | SelfBusyCheck | SelfDone
    | Write(to: SessionStatus)

  datatype ReleaseResult = Restored | Superseded | NotReleased

  datatype ReleasePc = LookForNewer | ReleaseCall | RecordRelease(result: ReleaseResult)

  datatype Proc =
    | Idle
    | Preparing(plan: Row, caller: Option<Snapshot>)
    | Punishing(run: Run)
    | JoinBusy(draft: Session) | JoinRead(draft: Session) | JoinInsert(draft: Session)
    | JoinRestrict(token: nat)
    | AnswerRead(token: nat, owner: bool, submitted: int, event: Option<int>)
    | AnswerBusy(token: nat, owner: bool, submitted: int, event: Option<int>)
    | AnswerWrite(token: nat, owner: bool, submitted: int, event: Option<int>)
    | Finishing(v: Snapshot, fpc: FinishPc)
    | SelfStart(draft: Session) | SelfInsert(draft: Session)
    | Observing(date: int)
    | ReleasingRow(row: nat, rpc: ReleasePc)

  datatype MemberState = MemberState(
    rows: seq<Row>, sessions: seq<Session>,
    proc: Proc,        // the holder of the member lock
    due: set<nat>      // rows listed by DuePermissionReleases, possibly long ago
  )

  const Nobody: MemberState := MemberState([], [], Idle, {})

  // ---------------------------------------------------------------- labels and effects

  /** Answers of Telegram and of tables that are not modelled. */
  datatype Env = Env(outcome: Outcome, chatStatus: ChatStatus, protected: bool,
                     verificationEnabled: bool, blacklisted: bool, superAdmin: bool)

  datatype Label =
    | Crash
    | BeginPunish(key: EventKey, message: int, decision: Decision, source: Source,
                  already: bool, repeat: Option<nat>)
    | BeginJoin(answer: int, fail: FailAction, timeout: int)
    | BeginAnswer(token: nat, owner: bool, submitted: int, event: Option<int>)
    | BeginSweep(token: nat)
    | BeginSelf(answer: int, timeout: int)
    | BeginObserve(date: int)
    | ListDue(row: nat)
    | BeginRelease(row: nat)
    | Go(env: Env)

  datatype Call = DeleteMessage | Notice | Restrict | Restore | BanMember | UnbanMember

  predicate PermissionCall(c: Call) {
    c == Restrict || c == Restore || c == BanMember || c == UnbanMember
  }

  datatype Origin = FromPunishment(row: nat) | FromSession(token: nat) | FromRelease(row: nat)

  datatype Effect = Quiet | Sent(origin: Origin, call: Call, outcome: Outcome)

  type Result = (MemberState, Effect)

  // ---------------------------------------------------------------- helpers

  function Drop(s: MemberState): MemberState {
    s.(proc := Idle)
  }

  function At(s: MemberState, run: Run, pc: PunishPc): MemberState {
    s.(proc := Punishing(run.(pc := pc)))
  }

  function Put(s: MemberState, k: nat, r: Row): MemberState
    requires k < |s.rows|
  {
    s.(rows := s.rows[k := r])
  }

  /** punishLocked returned nil. */
  function Return(s: MemberState, run: Run): MemberState {
    if run.caller.None? then Drop(s) else s.(proc := Finishing(run.caller.value, SelfDone))
  }

  /** A refused call: the deferred rule rejects the punishment only when nothing
      of it can have taken effect; every other error just ends the attempt. */
  function Refused(s: MemberState, run: Run, o: Outcome): MemberState {
    if o == Rejected && !run.mayHaveActed then At(s, run, Reject) else Drop(s)
  }

  /** History of a permission call. */
  function Noted(r: Row, o: Outcome, until: Option<int>): Row {
    if o == Rejected then r
    else r.(sent := true, settled := false, until := if o == Accepted then until else Later(r.until, until))
  }

  /** Of an answer that was lost, either date may be in effect. */
  function Later(a: Option<int>, b: Option<int>): Option<int> {
    if a.Some? && b.Some? && a.value > b.value then a else b
  }

  /** Whole seconds, truncated toward zero. */
  function Seconds(d: int): int {
    if d >= 0 then d / SECOND else -(-d / SECOND)
  }

  /** The until_date of a restriction for so many seconds, itself a whole second; zero
      seconds ask for one without end. */
  function UntilDate(now: int, seconds: nat): Option<int> {
    if seconds == 0 then None else Some((now + seconds * SECOND) / SECOND * SECOND)
  }

  // ---------------------------------------------------------------- Punish

  /** The decision that PreparePunishment stores: a ban of a known message always
      deletes it, and a repeated advertisement becomes a mute. */
  function Planned(l: Label): Decision
    requires l.BeginPunish?
  {
    var d := if l.decision.action == Ban && l.message > 0 then l.decision.(delete := true) else l.decision;
    if Recheck(l, d) && l.repeat.Some? && d.action != Ban && d.reason != LocalAdReview
    then Decision(Mute, true, l.repeat.value, RepeatedAd) else d
  }

  predicate Recheck(l: Label, d: Decision)
    requires l.BeginPunish?
  {
    (l.source == Automatic || l.source == Review) && d.delete && d.action != Ban
  }

  /** The approval test before the lock is left out: its answer may be stale by
      the time the lock is held, so it restricts nothing. Keys of self sessions
      come back only through recovery of a stored row. */
  function BeginPunishing(s: MemberState, l: Label, now: int): MemberState
    requires l.BeginPunish?
  {
    if l.decision.action == Allow || l.decision.action == ShadowLog then s
    else if l.key.SelfUnmute? && !HasKey(s.rows, l.key) then s
    else if l.already && Recheck(l, l.decision) then s
    else s.(proc := Preparing(NewRow(l.key, l.message, Planned(l), l.source, now), None))
  }

  /** INSERT IGNORE of the punishment. created_at strictly increases with id. */
  function Prepare(s: MemberState, now: int): MemberState
    requires s.proc.Preparing?
  {
    if s.rows != [] && now <= s.rows[|s.rows| - 1].createdAt then s
    else
      var rows := InsertRow(s.rows, s.proc.plan.(createdAt := now));
      assert HasKey(rows, s.proc.plan.key) by {
        if !HasKey(s.rows, s.proc.plan.key) { assert rows[|s.rows|].key == s.proc.plan.key; }
      }
      s.(rows := rows,
         proc := Punishing(Run(KeyIndex(rows, s.proc.plan.key), AddWorkflow, false, false, false, false, 0,
                               s.proc.caller)))
  }

  function AfterAction(run: Run, r: Row): PunishPc {
    if r.decision.action == Ban && r.message > 0 && !run.deleted0 then BanDelete else Notify
  }

  /** Up to the snapshot of the row. */
  function ReadSnapshot(user: int, s: MemberState, run: Run, r: Row): MemberState {
    if r.status == Done || r.status == Skipped then Return(s, run)
    else if r.status == Failed then Drop(s)
    else
      var seen := run.(deleted0 := r.deleted, acted0 := r.acted, started0 := r.started,
                       mayHaveActed := r.acted || r.deleted || r.started);
      if user >= 0 then At(s, seen, Preflight)
      else if r.decision.action != Warn && r.decision.action != Delete then Drop(s)
      else if !r.deleted && (r.decision.delete || r.decision.action == Delete) then At(s, seen, SenderDelete)
      else AfterSenderDelete(s, seen, r)
  }

  function AfterSenderDelete(s: MemberState, run: Run, r: Row): MemberState {
    At(s, run, if r.decision.action == Warn && !run.acted0 then SenderNotice else MarkDone)
  }

  /** The action stage of a user punishment starts with the message, unless a
      ban comes first. */
  function EnterAction(s: MemberState, run: Run, r: Row, now: int): MemberState {
    if r.decision.delete && r.decision.action != Ban && !run.deleted0 && r.message > 0
    then At(s, run, PreDelete) else Approach(s, run, r, now)
  }

  /** After the delete step: act unless an earlier attempt did. */
  function Approach(s: MemberState, run: Run, r: Row, now: int): MemberState {
    if run.acted0 then At(s, run, AfterAction(run, r))
    else if TimedMute(r.decision) && !run.started0 && now >= Deadline(r) then At(s, run, MarkFailed)
    else if Permission(r.decision.action) then At(s, run, StartCall)
    else if r.decision.action == Delete || r.decision.action == Warn then At(s, run, MainCall)
    else Drop(s)
  }

  function MainCallOf(r: Row): Option<Call> {
    match r.decision.action
    case Delete => if !r.decision.delete && r.message > 0 then Some(DeleteMessage) else None
    case Warn => Some(Notice)
    case Mute => Some(Restrict)
    case Ban => Some(BanMember)
    case Unmute => Some(Restore)
    case Unban => Some(UnbanMember)
    case _ => None
  }

  function DoMainCall(now: int, s: MemberState, run: Run, r: Row, env: Env): Result
    requires run.k < |s.rows|
  {
    var c := MainCallOf(r);
    if c.None? then (At(s, run.(mayHaveActed := true), Complete), Quiet)
    else
      var s' := if PermissionCall(c.value) then Put(s, run.k, Noted(r, env.outcome, UntilDate(now, run.seconds))) else s;
      ( if env.outcome == Accepted then At(s', run.(mayHaveActed := true), Complete)
        else if c.value == Notice then Drop(s')
        else Refused(s', run, env.outcome),
        Sent(FromPunishment(run.k), c.value, env.outcome) )
  }

  /** CompleteTakeover for permission actions, the `acted` step for the others. */
  function DoComplete(g: Group, s: MemberState, run: Run, r: Row): MemberState
    requires run.k < |s.rows|
  {
    if Permission(r.decision.action) then
      var t := CompleteTakeover(g, s.rows, s.sessions, run.k);
      if t.None? then Drop(s)
      else At(s.(rows := t.value.0, sessions := t.value.1), run, AfterAction(run, r))
    else At(Put(s, run.k, StepActed(r)), run, AfterAction(run, r))
  }

  function DoNotify(s: MemberState, run: Run, r: Row, env: Env): Result {
    if r.decision.reason == RepeatedAd
       || (r.decision.reason == LocalAdReview && !NewerManual(s.rows, r.createdAt))
    then (if env.outcome == Accepted then At(s, run, MarkDone) else Drop(s),
          Sent(FromPunishment(run.k), Notice, env.outcome))
    else (At(s, run, MarkDone), Quiet)
  }

  /** From PreparePunishment to the checks before anything is touched. */
  function PreflightStep(id: MemberId, g: Group, now: int, s: MemberState, run: Run, r: Row, env: Env): MemberState
    requires run.k < |s.rows|
  {
    match run.pc
    case AddWorkflow => At(Put(s, run.k, InsertWorkflow(g, r)), run, ReadRow)
    case ReadRow => ReadSnapshot(id.user, s, run, r)
    case Preflight =>
      if env.protected && r.decision.action != Unmute && r.decision.action != Unban
      then At(s, run, MarkSkipped)
      else if r.source == Automatic || r.source == Manual || r.source == Review
      then At(s, run, CheckNewer)
      else EnterAction(s, run, r, now)
    case CheckNewer =>
      if NewerManual(s.rows, r.createdAt) then At(s, run, MarkSkipped) else EnterAction(s, run, r, now)
    case MarkSkipped => Return(Put(s, run.k, StepSkipped(r)), run)
    case _ => s
  }

  /** The message delete that precedes the action. */
  function DeleteStep(now: int, s: MemberState, run: Run, r: Row, env: Env): Result
    requires run.k < |s.rows|
  {
    if run.pc == PreDelete then
      (if env.outcome == Accepted then At(s, run.(mayHaveActed := true), MarkPreDeleted)
       else Refused(s, run, env.outcome),
       Sent(FromPunishment(run.k), DeleteMessage, env.outcome))
    else (Approach(Put(s, run.k, StepDeleted(r)), run, r, now), Quiet)
  }

  /** When the bot itself has to lift the restriction. */
  function Until(r: Row): Option<int> {
    if TimedMute(r.decision) then Some(Deadline(r)) else None
  }

  /** The write-ahead commit and the deadline test of a timed mute. */
  function StartStep(g: Group, now: int, s: MemberState, run: Run, r: Row): MemberState
    requires run.k < |s.rows|
  {
    match run.pc
    case StartCall =>
      var r' := StartPermission(g, r, Until(r));
      if r'.None? then Drop(s)
      else At(Put(s, run.k, r'.value), run,
              if r.decision.action == Kick then KickRead
              else if TimedMute(r.decision) then CheckDeadline
              else MainCall)
    case CheckDeadline =>
      var seconds := Seconds(Deadline(r) - now);
      if seconds > 0 then At(s, run.(seconds := seconds), MainCall) else At(s, run, MarkFailed)
    case MarkFailed => Drop(Put(s, run.k, FailPunishment(r)))
    case _ => s
  }

  /** A kick has two effects that are recovered independently. */
  function KickStep(s: MemberState, run: Run, r: Row, env: Env): Result
    requires run.k < |s.rows|
  {
    match run.pc
    case KickRead =>
      (if r.kickBanned then At(s, run.(mayHaveActed := true), KickUnban) else At(s, run, KickBan), Quiet)
    case KickBan =>
      var s' := Put(s, run.k, Noted(r, env.outcome, None));
      (if env.outcome == Accepted then At(s', run.(mayHaveActed := true), KickMark)
       else Refused(s', run, env.outcome),
       Sent(FromPunishment(run.k), BanMember, env.outcome))
    case KickMark => (At(Put(s, run.k, MarkKickBanned(r)), run, KickUnban), Quiet)
    case KickUnban =>
      (if env.outcome == Accepted then At(s, run, KickConfirm) else Refused(s, run, env.outcome),
       Sent(FromPunishment(run.k), UnbanMember, env.outcome))
    case KickConfirm =>
      (if env.chatStatus == Kicked then Drop(s)
       else At(Put(s, run.k, r.(unbanned := true)), run, Complete), Quiet)
    case _ => (s, Quiet)
  }

  /** What follows the action, and the deferred rejection. */
  function TailStep(s: MemberState, run: Run, r: Row, env: Env): Result
    requires run.k < |s.rows|
  {
    match run.pc
    case BanDelete =>
      (if env.outcome == Accepted then At(s, run, MarkBanDeleted) else Refused(s, run, env.outcome),
       Sent(FromPunishment(run.k), DeleteMessage, env.outcome))
    case MarkBanDeleted => (At(Put(s, run.k, StepDeleted(r)), run, Notify), Quiet)
    case Notify => DoNotify(s, run, r, env)
    case MarkDone => (Return(Put(s, run.k, StepDone(r)), run), Quiet)
    case Reject => (Drop(Put(s, run.k, RejectPunishment(r))), Quiet)
    case _ => (s, Quiet)
  }

  /** punishSenderChat: a channel identity is never restricted. */
  function SenderStep(s: MemberState, run: Run, r: Row, env: Env): Result
    requires run.k < |s.rows|
  {
    match run.pc
    case SenderDelete =>
      (if env.outcome == Accepted then At(s, run, SenderMark) else Drop(s),
       Sent(FromPunishment(run.k), DeleteMessage, env.outcome))
    case SenderMark => (AfterSenderDelete(Put(s, run.k, StepDeleted(r)), run, r), Quiet)
    case SenderNotice =>
      (if env.outcome == Accepted then At(s, run, SenderAct) else Drop(s),
       Sent(FromPunishment(run.k), Notice, env.outcome))
    case SenderAct => (At(Put(s, run.k, StepActed(r)), run, MarkDone), Quiet)
    case _ => (s, Quiet)
  }

  function PunishStep(id: MemberId, g: Group, now: int, s: MemberState, env: Env): Result
    requires s.proc.Punishing?
  {
    var run := s.proc.run;
    if run.k >= |s.rows| then (Drop(s), Quiet)
    else
      var r := s.rows[run.k];
      match run.pc
      case AddWorkflow | ReadRow | Preflight | CheckNewer | MarkSkipped =>
        (PreflightStep(id, g, now, s, run, r, env), Quiet)
      case PreDelete | MarkPreDeleted => DeleteStep(now, s, run, r, env)
      case StartCall | CheckDeadline | MarkFailed => (StartStep(g, now, s, run, r), Quiet)
      case MainCall => DoMainCall(now, s, run, r, env)
      case KickRead | KickBan | KickMark | KickUnban | KickConfirm => KickStep(s, run, r, env)
      case Complete => (DoComplete(g, s, run, r), Quiet)
      case BanDelete | MarkBanDeleted | Notify | MarkDone | Reject => TailStep(s, run, r, env)
      case SenderDelete | SenderMark | SenderNotice | SenderAct => SenderStep(s, run, r, env)
  }

  // ---------------------------------------------------------------- Join

  function JoinStep(s: MemberState, now: int, env: Env): Result
    requires s.proc.JoinBusy? || s.proc.JoinRead? || s.proc.JoinInsert? || s.proc.JoinRestrict?
  {
    match s.proc
    case JoinBusy(v) =>
      // `protected` stands for "already verified in this join".
      (if TakenOver(s.rows) || env.protected then Drop(s) else s.(proc := JoinRead(v)), Quiet)
    case JoinRead(v) =>
      var t := ActiveSession(s.sessions);
      (if t.None? then s.(proc := JoinInsert(v))
       else if s.sessions[t.value].status != VPending then Drop(s)
       else s.(proc := JoinRestrict(t.value)), Quiet)
    case JoinInsert(v) =>
      (s.(sessions := CreateSession(s.sessions, NewSession(false, v.answer, v.failAction, v.expiresAt, now)),
          proc := JoinRestrict(|s.sessions|)), Quiet)
    case JoinRestrict(t) =>
      (Drop(s), Sent(FromSession(t), Restrict, env.outcome))
  }

  // ---------------------------------------------------------------- AnswerVerification

  function SnapshotOf(v: Session, t: nat): Snapshot {
    Snapshot(t, v.status, v.kickStarted)
  }

  function AnswerStep(s: MemberState, now: int): MemberState
    requires s.proc.AnswerRead? || s.proc.AnswerBusy? || s.proc.AnswerWrite?
  {
    if s.proc.token >= |s.sessions| then Drop(s)
    else
      var v := s.sessions[s.proc.token];
      match s.proc
      case AnswerRead(t, o, a, e) =>
        if v.status == Verified || v.status == Cancelled || v.status == Releasing then Drop(s)
        else if v.own then
          if v.status == Completing then s.(proc := Finishing(SnapshotOf(v, t), Enter))
          else s.(proc := AnswerWrite(t, o, a, e))
        else s.(proc := AnswerBusy(t, o, a, e))
      case AnswerBusy(t, o, a, e) =>
        if TakenOver(s.rows) then Drop(s)
        else if v.status == Completing then s.(proc := Finishing(SnapshotOf(v, t), Enter))
        else s.(proc := AnswerWrite(t, o, a, e))
      case AnswerWrite(t, o, a, e) =>
        var (v', verdict) := Answer(v, o, a, e, now);
        var s' := s.(sessions := s.sessions[t := v']);
        if verdict == Wrong then Drop(s') else s'.(proc := Finishing(SnapshotOf(v', t), Enter))
  }

  // ---------------------------------------------------------------- finishVerification

  function ReleaseKick(): seq<SessionOp> { [OpUnban, OpConfirm] }

  /** The permission work of finishVerification and the status it ends in, by
      branch; None is the final `return nil`. */
  function FinishPlan(v: Snapshot, fail: FailAction, authorized: bool, env: Env)
    : Option<(seq<SessionOp>, SessionStatus)>
  {
    var c := env.chatStatus;
    if !authorized || !env.verificationEnabled || v.status == Releasing then
      Some(((if c.Restricted? then [OpRestore] else [])
            + (if v.kickStarted && fail == FailKick then ReleaseKick() else []), Cancelled))
    else if v.status == Completing then
      if !Present(c) then Some(([], Left))
      else if env.blacklisted && !Admin(c) && !env.superAdmin then Some(([OpBan], Blocked))
      else Some((if Admin(c) then [] else [OpRestore], Verified))
    else if v.status == Expiring then
      if env.protected then
        if c.Restricted? then Some(([OpRestore], Cancelled)) else Some(([], Expired))
      else if fail == FailKick then
        Some(((if Present(c) then [OpMarkKick, OpBan] else [])
              + (if Present(c) || v.kickStarted then ReleaseKick() else []), Expired))
      else if fail == FailBan && Present(c) then Some(([OpBan], Expired))
      else Some(([], Expired))
    else None
  }

  function SessionCall(op: SessionOp): Call
    requires op == OpRestore || op == OpBan || op == OpUnban
  {
    match op case OpRestore => Restore case OpBan => BanMember case OpUnban => UnbanMember
  }

  function DoSessionOp(s: MemberState, v: Snapshot, ops: seq<SessionOp>, to: SessionStatus, env: Env): Result
    requires v.token < |s.sessions|
  {
    if ops == [] then (s.(proc := Finishing(v, Write(to))), Quiet)
    else
      var next := s.(proc := Finishing(v, Perform(ops[1..], to)));
      match ops[0]
      case OpMarkKick =>
        (next.(sessions := s.sessions[v.token := BeginKick(s.sessions[v.token])]), Quiet)
      case OpConfirm => (if env.chatStatus == Kicked then Drop(s) else next, Quiet)
      case _ =>
        (if env.outcome == Accepted then next else Drop(s),
         Sent(FromSession(v.token), SessionCall(ops[0]), env.outcome))
  }

  function FinishStep(g: Group, s: MemberState, now: int, env: Env): Result
    requires s.proc.Finishing?
  {
    var v := s.proc.v;
    if v.token >= |s.sessions| then (Drop(s), Quiet)
    else
      var row := s.sessions[v.token];
      match s.proc.fpc
      case Enter =>
        (if Terminal(v.status) then Drop(s)
         else s.(proc := Finishing(v, if row.own then SelfPlan else Busy)), Quiet)
      case Busy =>
        (if TakenOver(s.rows) then Drop(s) else s.(proc := Finishing(v, Plan)), Quiet)
      case Plan =>
        var p := FinishPlan(v, row.failAction, Authorized(g), env);
        (if p.None? then Drop(s) else s.(proc := Finishing(v, Perform(p.value.0, p.value.1))), Quiet)
      case Perform(ops, to) => DoSessionOp(s, v, ops, to, env)
      case SelfPlan =>
        (if !Authorized(g) || v.status == Releasing then s.(proc := Finishing(v, Write(Cancelled)))
         else if v.status == Completing then
           s.(proc := Finishing(v, if Present(env.chatStatus) then SelfBusyCheck else Write(Left)))
         else if v.status == Expiring then s.(proc := Finishing(v, Write(Expired)))
         else Drop(s), Quiet)
      case SelfBusyCheck =>
        (if SelfBusy(s.rows, v.token) then Drop(s)
         else s.(proc := Preparing(
           NewRow(SelfUnmute(v.token), 0, Decision(Unmute, false, 0, SelfVerification), Manual, now), Some(v))),
         Quiet)
      case SelfDone =>
        (s.(proc := Finishing(v, Write(if SelfUnmuteDone(s.rows, v.token) then Verified else Cancelled))), Quiet)
      case Write(to) =>
        var r := FinishSession(row, v.status, to);
        (Drop(if r.None? then s else s.(sessions := s.sessions[v.token := r.value])), Quiet)
  }

  // ---------------------------------------------------------------- self verification

  function SelfStep(g: Group, s: MemberState, now: int, env: Env): MemberState
    requires s.proc.SelfStart? || s.proc.SelfInsert?
  {
    match s.proc
    case SelfStart(v) =>
      if !Authorized(g) || !Present(env.chatStatus) || !env.chatStatus.Restricted? || TakenOver(s.rows)
      then Drop(s)
      else
        var t := ActiveSession(s.sessions);
        if t.Some? && s.sessions[t.value].own && s.sessions[t.value].status == VPending
           && now < s.sessions[t.value].expiresAt
        then Drop(s) else s.(proc := SelfInsert(v))
    case SelfInsert(v) =>
      Drop(s.(sessions := CreateSelfSession(s.sessions, NewSession(true, v.answer, FailMute, v.expiresAt, now))))
  }

  // ---------------------------------------------------------------- release tasks

  function ReleaseCallOf(r: Row): Call {
    if r.decision.action == Mute then Restore else UnbanMember
  }

  function ReleaseStep(s: MemberState, now: int, env: Env): Result
    requires s.proc.ReleasingRow?
  {
    var k := s.proc.row;
    if k >= |s.rows| then (Drop(s), Quiet)
    else
      var r := s.rows[k];
      match s.proc.rpc
      case LookForNewer =>
        // `Unknown` stands for a failed read, which postpones the release.
        (s.(proc := ReleasingRow(k, if env.outcome == Unknown then RecordRelease(NotReleased)
                                    else if NewerPermission(s.rows, s.sessions, r.createdAt)
                                    then RecordRelease(Superseded) else ReleaseCall)), Quiet)
      case ReleaseCall =>
        (s.(proc := ReleasingRow(k, RecordRelease(if env.outcome == Accepted then Restored else NotReleased))),
         Sent(FromRelease(k), ReleaseCallOf(r), env.outcome))
      case RecordRelease(result) =>
        (if result == NotReleased then Drop(Put(s, k, PostponeRelease(r, now)))
         else Drop(Put(s, k, FinishRelease(r)).(
                sessions := if result == Restored then CancelUpTo(s.sessions, r.createdAt) else s.sessions)),
         Quiet)
  }

  // ---------------------------------------------------------------- all programs

  /** Taking the lock needs it to be free. */
  function Begin(s: MemberState, l: Label, now: int): MemberState
    requires s.proc == Idle
  {
    match l
    case BeginPunish(_, _, _, _, _, _) => BeginPunishing(s, l, now)
    case BeginJoin(a, f, d) => s.(proc := JoinBusy(NewSession(false, a, f, now + d, now)))
    case BeginAnswer(t, o, a, e) => s.(proc := AnswerRead(t, o, a, e))
    case BeginSweep(t) =>
      if t < |s.sessions| && s.sessions[t].status != VPending
      then s.(proc := Finishing(SnapshotOf(s.sessions[t], t), Enter)) else s
    case BeginSelf(a, d) => s.(proc := SelfStart(NewSession(true, a, FailMute, now + d, now)))
    case BeginObserve(date) => s.(proc := Observing(date))
    case BeginRelease(k) => if k in s.due then s.(proc := ReleasingRow(k, LookForNewer)) else s
    case _ => s
  }

  function Continue(id: MemberId, g: Group, now: int, s: MemberState, env: Env): Result {
    match s.proc
    case Idle => (s, Quiet)
    case Preparing(_, _) => (Prepare(s, now), Quiet)
    case Punishing(_) => PunishStep(id, g, now, s, env)
    case JoinBusy(_) | JoinRead(_) | JoinInsert(_) => JoinStep(s, now, env)
    case JoinRestrict(_) => JoinStep(s, now, env)
    case AnswerRead(_, _, _, _) | AnswerBusy(_, _, _, _) | AnswerWrite(_, _, _, _) => (AnswerStep(s, now), Quiet)
    case Finishing(_, _) => FinishStep(g, s, now, env)
    case SelfStart(_) | SelfInsert(_) => (SelfStep(g, s, now, env), Quiet)
    case Observing(date) => (Drop(s.(sessions := CancelExternal(s.sessions, date))), Quiet)
    case ReleasingRow(_, _) => ReleaseStep(s, now, env)
  }

  function Next(id: MemberId, g: Group, now: int, s: MemberState, l: Label): Result {
    match l
    case Crash => (Drop(s), Quiet)
    case ListDue(k) =>
      (if k < |s.rows| && ReleaseDue(s.rows[k], now) then s.(due := s.due + {k}) else s, Quiet)
    case Go(env) => Continue(id, g, now, s, env)
    case _ => if s.proc == Idle then (Begin(s, l, now), Quiet) else (s, Quiet)
  }
}
