/** The remaining steps keep the invariant too: verification programs, release
    tasks, the start of a program, and the writers that take no lock. */
module StepSafety {
  import opened Domain
  import opened Tables
  import opened Machine
  import opened Invariant
  import opened Preservation

  // ---------------------------------------------------------------- PreparePunishment

  lemma InsertKeeps(user: int, epoch: nat, now: int, rows: seq<Row>, r: Row)
    requires RowsInv(user, epoch, now, rows) && RowInv(user, epoch, now, r) && !HasKey(rows, r.key)
    requires rows == [] || rows[|rows| - 1].createdAt < r.createdAt
    requires !r.acted
    ensures RowsInv(user, epoch, now, rows + [r])
  {
    var rows' := rows + [r];
    forall i, j | 0 <= i < j < |rows'|
      ensures rows'[i].createdAt < rows'[j].createdAt && rows'[i].key != rows'[j].key
    {
      if j == |rows| && i < |rows| - 1 {
        assert rows[i].createdAt < rows[|rows| - 1].createdAt;
      }
    }
  }

  lemma PrepareKeeps(user: int, epoch: nat, now: int, s: MemberState)
    requires MemberInv(user, epoch, now, s) && s.proc.Preparing?
    ensures MemberInv(user, epoch, now, Prepare(s, now))
  {
    var plan := s.proc.plan.(createdAt := now);
    if HasKey(s.rows, plan.key) {
      assert InsertRow(s.rows, plan) == s.rows;
    } else if s.rows == [] || s.rows[|s.rows| - 1].createdAt < now {
      assert RowInv(user, epoch, now, plan);
      InsertKeeps(user, epoch, now, s.rows, plan);
      assert forall i :: 0 <= i < |s.rows| ==> Evolves(s.rows[i], (s.rows + [plan])[i]);
      OwnStays(s.rows, s.rows + [plan], s.sessions);
      assert (s.rows + [plan])[|s.rows|].key == plan.key;
    }
  }

  // ---------------------------------------------------------------- new sessions

  lemma NewSessionInv(own: bool, a: int, f: FailAction, e: int, at: int, now: int)
    requires at <= now
    ensures SessionInv(now, NewSession(own, a, f, e, at))
  {
    assert WrongEvents(NewSession(own, a, f, e, at)) == {};
  }

  lemma AppendKeeps(now: int, rows: seq<Row>, ss: seq<Session>, v: Session)
    requires SessionsInv(now, ss) && OwnInv(rows, ss) && SessionInv(now, v) && v.status == VPending
    requires forall t :: 0 <= t < |ss| ==> !Active(ss[t])
    ensures SessionsInv(now, ss + [v]) && OwnInv(rows, ss + [v])
  {
  }

  // ---------------------------------------------------------------- Join

  lemma JoinKeeps(user: int, epoch: nat, now: int, s: MemberState, env: Env)
    requires MemberInv(user, epoch, now, s)
    requires s.proc.JoinBusy? || s.proc.JoinRead? || s.proc.JoinInsert? || s.proc.JoinRestrict?
    ensures MemberInv(user, epoch, now, JoinStep(s, now, env).0)
  {
    if s.proc.JoinInsert? {
      var v := s.proc.draft;
      NewSessionInv(false, v.answer, v.failAction, v.expiresAt, now, now);
      AppendKeeps(now, s.rows, s.sessions, NewSession(false, v.answer, v.failAction, v.expiresAt, now));
    }
  }

  // ---------------------------------------------------------------- AnswerVerification

  /** The answer can be recorded: it is in time, new, and not after three wrong ones. */
  predicate Open(v: Session, event: Option<int>, now: int) {
    v.status == VPending && now <= v.expiresAt && v.attempts < 3 && (event.Some? ==> event.value !in v.answers)
  }

  lemma AnswerCases(v: Session, owner: bool, submitted: int, event: Option<int>, now: int)
    ensures var (v', verdict) := Answer(v, owner, submitted, event, now);
      || (v' == v && (verdict == Correct ==> event.Some? && event.value in v.answers && v.answers[event.value]))
      || (Open(v, event, now) && v' == Missed(v, event, now) && verdict == Wrong)
      || (Open(v, event, now) && v' == Hit(v, event) && verdict == Correct)
  {
    hide Missed, Hit;
  }

  lemma MissedInv(now: int, v: Session, event: Option<int>)
    requires SessionInv(now, v) && Open(v, event, now)
    ensures SessionInv(now, Missed(v, event, now))
  {
    var v' := Missed(v, event, now);
    if event.None? {
      assert WrongEvents(v') == WrongEvents(v);
    } else {
      assert WrongEvents(v') == WrongEvents(v) + {event.value};
    }
  }

  lemma HitInv(now: int, v: Session, event: Option<int>)
    requires SessionInv(now, v) && Open(v, event, now)
    ensures SessionInv(now, Hit(v, event))
  {
    assert WrongEvents(Hit(v, event)) == WrongEvents(v);
  }

  /** What an answer leaves of the session. */
  lemma AnswerInv(now: int, v: Session, owner: bool, submitted: int, event: Option<int>)
    requires SessionInv(now, v)
    ensures var (v', verdict) := Answer(v, owner, submitted, event, now);
      && SessionInv(now, v') && Active(v') == Active(v) && v'.own == v.own
      && (v'.status == Verified ==> v.status == Verified)
      && (verdict == Correct ==> v'.status != VPending)
  {
    hide Answer, SessionInv, WrongEvents, Record;
    AnswerCases(v, owner, submitted, event, now);
    var (v', verdict) := Answer(v, owner, submitted, event, now);
    if Open(v, event, now) {
      MissedInv(now, v, event);
      HitInv(now, v, event);
    }
    if v' == v && verdict == Correct && v.status == VPending {
      PendingMissed(now, v, event);
    }
  }

  lemma PendingMissed(now: int, v: Session, event: Option<int>)
    requires SessionInv(now, v) && v.status == VPending
    ensures event.Some? && event.value in v.answers ==> !v.answers[event.value]
  {
    if event.Some? {
      var e := event.value;
      assert e in v.answers ==> !v.answers[e];
    }
  }

  lemma AnsweredSessions(now: int, rows: seq<Row>, ss: seq<Session>, t: nat, v: Session)
    requires SessionsInv(now, ss) && OwnInv(rows, ss) && t < |ss|
    requires SessionInv(now, v) && Active(v) == Active(ss[t]) && v.own == ss[t].own
    requires v.status == Verified ==> ss[t].status == Verified
    ensures SessionsInv(now, ss[t := v]) && OwnInv(rows, ss[t := v])
  {
    hide SessionInv, SelfUnmuteDone, Active;
  }

  lemma AnswerWriteKeeps(user: int, epoch: nat, now: int, s: MemberState)
    requires MemberInv(user, epoch, now, s) && s.proc.AnswerWrite? && s.proc.token < |s.sessions|
    ensures MemberInv(user, epoch, now, AnswerStep(s, now))
  {
    hide Answer, SessionInv, RowInv, SelfUnmuteDone;
    var v := s.sessions[s.proc.token];
    AnswerInv(now, v, s.proc.owner, s.proc.submitted, s.proc.event);
    var v' := Answer(v, s.proc.owner, s.proc.submitted, s.proc.event, now).0;
    AnsweredSessions(now, s.rows, s.sessions, s.proc.token, v');
  }

  lemma AnswerReadKeeps(user: int, epoch: nat, now: int, s: MemberState)
    requires MemberInv(user, epoch, now, s)
    requires s.proc.AnswerRead? || s.proc.AnswerBusy? || s.proc.AnswerWrite?
    requires s.proc.AnswerWrite? ==> s.proc.token >= |s.sessions|
    ensures MemberInv(user, epoch, now, AnswerStep(s, now))
  {
    hide Answer, RowInv, SessionInv;
  }

  lemma AnswerKeeps(user: int, epoch: nat, now: int, s: MemberState)
    requires MemberInv(user, epoch, now, s)
    requires s.proc.AnswerRead? || s.proc.AnswerBusy? || s.proc.AnswerWrite?
    ensures MemberInv(user, epoch, now, AnswerStep(s, now))
  {
    hide MemberInv, AnswerStep;
    if s.proc.AnswerWrite? && s.proc.token < |s.sessions| {
      AnswerWriteKeeps(user, epoch, now, s);
    } else {
      AnswerReadKeeps(user, epoch, now, s);
    }
  }

  // ---------------------------------------------------------------- finishVerification

  lemma OneSessionKeeps(now: int, rows: seq<Row>, ss: seq<Session>, t: nat, v: Session)
    requires SessionsInv(now, ss) && OwnInv(rows, ss) && t < |ss|
    requires v == ss[t].(status := v.status, kickStarted := v.kickStarted)
    requires Active(v) ==> v.status == ss[t].status
    requires v.status == Verified ==> ss[t].answered && (v.own ==> SelfUnmuteDone(rows, t))
    ensures SessionsInv(now, ss[t := v]) && OwnInv(rows, ss[t := v])
  {
    assert WrongEvents(v) == WrongEvents(ss[t]);
    assert SessionInv(now, ss[t]);
  }

  lemma PlanResult(v: Snapshot, fail: FailAction, authorized: bool, env: Env)
    requires v.status != VPending && !Terminal(v.status)
    ensures FinishPlan(v, fail, authorized, env).Some?
    ensures MayEnd(v.status, FinishPlan(v, fail, authorized, env).value.1)
  {
  }

  lemma FinishFacts(user: int, epoch: nat, now: int, s: MemberState)
    requires MemberInv(user, epoch, now, s) && s.proc.Finishing?
    ensures FinishInv(s, s.proc.v, s.proc.fpc)
  {
    hide RowsInv, SessionsInv, OwnInv, FinishInv;
  }

  /** The program moves on without writing. */
  lemma TurnKeeps(user: int, epoch: nat, now: int, s: MemberState, pc: FinishPc)
    requires MemberInv(user, epoch, now, s) && s.proc.Finishing? && FinishInv(s, s.proc.v, pc)
    ensures MemberInv(user, epoch, now, s.(proc := Finishing(s.proc.v, pc)))
  {
  }

  /** The program writes its own session. */
  lemma WriteKeeps(user: int, epoch: nat, now: int, s: MemberState, v: Session, p: Proc)
    requires MemberInv(user, epoch, now, s) && s.proc.Finishing?
    requires var row := s.sessions[s.proc.v.token];
      && v == row.(status := v.status, kickStarted := v.kickStarted)
      && (Active(v) ==> v.status == row.status)
      && (v.status == Verified ==> row.answered && (v.own ==> SelfUnmuteDone(s.rows, s.proc.v.token)))
    requires p == Idle || (v.status == s.sessions[s.proc.v.token].status
                           && p.Finishing? && p.v == s.proc.v && FinishInv(s, p.v, p.fpc))
    ensures MemberInv(user, epoch, now, s.(sessions := s.sessions[s.proc.v.token := v], proc := p))
  {
    OneSessionKeeps(now, s.rows, s.sessions, s.proc.v.token, v);
  }

  lemma PerformKeeps(user: int, g: Group, now: int, s: MemberState, env: Env)
    requires MemberInv(user, g.epoch, now, s) && s.proc.Finishing? && s.proc.fpc.Perform?
    ensures MemberInv(user, g.epoch, now, FinishStep(g, s, now, env).0)
  {
    var v, ops, to := s.proc.v, s.proc.fpc.ops, s.proc.fpc.to;
    DropKeeps(user, g.epoch, now, s);
    if ops == [] {
      TurnKeeps(user, g.epoch, now, s, Write(to));
    } else {
      TurnKeeps(user, g.epoch, now, s, Perform(ops[1..], to));
      if ops[0] == OpMarkKick {
        WriteKeeps(user, g.epoch, now, s, BeginKick(s.sessions[v.token]), Finishing(v, Perform(ops[1..], to)));
      }
    }
  }

  lemma WriteStepKeeps(user: int, g: Group, now: int, s: MemberState, env: Env)
    requires MemberInv(user, g.epoch, now, s) && s.proc.Finishing? && s.proc.fpc.Write?
    ensures MemberInv(user, g.epoch, now, FinishStep(g, s, now, env).0)
  {
    var v, to := s.proc.v, s.proc.fpc.to;
    var row := s.sessions[v.token];
    DropKeeps(user, g.epoch, now, s);
    if row.status == v.status {
      assert SessionInv(now, row);
      WriteKeeps(user, g.epoch, now, s, row.(status := to), Idle);
    }
  }

  lemma FinishKeeps(user: int, g: Group, now: int, s: MemberState, env: Env)
    requires MemberInv(user, g.epoch, now, s) && s.proc.Finishing?
    ensures MemberInv(user, g.epoch, now, FinishStep(g, s, now, env).0)
  {
    if s.proc.fpc.Perform? {
      PerformKeeps(user, g, now, s, env);
    } else if s.proc.fpc.Write? {
      WriteStepKeeps(user, g, now, s, env);
    } else if s.proc.fpc.Enter? || s.proc.fpc.Busy? || s.proc.fpc.Plan? {
      ChooseKeeps(user, g, now, s, env);
    } else {
      ChooseSelfKeeps(user, g, now, s, env);
    }
  }

  lemma ChooseKeeps(user: int, g: Group, now: int, s: MemberState, env: Env)
    requires MemberInv(user, g.epoch, now, s) && s.proc.Finishing?
    requires s.proc.fpc.Enter? || s.proc.fpc.Busy? || s.proc.fpc.Plan?
    ensures MemberInv(user, g.epoch, now, FinishStep(g, s, now, env).0)
  {
    hide MemberInv;
    FinishFacts(user, g.epoch, now, s);
    var v := s.proc.v;
    var row := s.sessions[v.token];
    DropKeeps(user, g.epoch, now, s);
    match s.proc.fpc {
      case Enter =>
        if !Terminal(v.status) { TurnKeeps(user, g.epoch, now, s, if row.own then SelfPlan else Busy); }
      case Busy =>
        if !TakenOver(s.rows) { TurnKeeps(user, g.epoch, now, s, Plan); }
      case Plan =>
        PlanResult(v, row.failAction, Authorized(g), env);
        var p := FinishPlan(v, row.failAction, Authorized(g), env);
        TurnKeeps(user, g.epoch, now, s, Perform(p.value.0, p.value.1));
    }
  }

  lemma ChooseSelfKeeps(user: int, g: Group, now: int, s: MemberState, env: Env)
    requires MemberInv(user, g.epoch, now, s) && s.proc.Finishing?
    requires s.proc.fpc.SelfPlan? || s.proc.fpc.SelfBusyCheck? || s.proc.fpc.SelfDone?
    ensures MemberInv(user, g.epoch, now, FinishStep(g, s, now, env).0)
  {
    hide RowsInv, SessionsInv, OwnInv;
    DropKeeps(user, g.epoch, now, s);
  }

  // ---------------------------------------------------------------- self verification

  lemma SelfKeeps(user: int, g: Group, now: int, s: MemberState, env: Env)
    requires MemberInv(user, g.epoch, now, s) && (s.proc.SelfStart? || s.proc.SelfInsert?)
    ensures MemberInv(user, g.epoch, now, SelfStep(g, s, now, env))
  {
    if s.proc.SelfInsert? {
      var cancelled := CancelAllBut(s.sessions, None);
      NarrowKeeps(now, s.rows, s.sessions, cancelled);
      var v := s.proc.draft;
      NewSessionInv(true, v.answer, FailMute, v.expiresAt, now, now);
      AppendKeeps(now, s.rows, cancelled, NewSession(true, v.answer, FailMute, v.expiresAt, now));
    }
  }

  lemma ObserveKeeps(user: int, epoch: nat, now: int, s: MemberState, date: int)
    requires MemberInv(user, epoch, now, s)
    ensures MemberInv(user, epoch, now, Drop(s.(sessions := CancelExternal(s.sessions, date))))
  {
    NarrowKeeps(now, s.rows, s.sessions, CancelExternal(s.sessions, date));
  }

  // ---------------------------------------------------------------- release tasks

  lemma ReleaseKeeps(user: int, epoch: nat, now: int, s: MemberState, env: Env)
    requires MemberInv(user, epoch, now, s) && s.proc.ReleasingRow?
    ensures MemberInv(user, epoch, now, ReleaseStep(s, now, env).0)
  {
    var k := s.proc.row;
    var r := s.rows[k];
    if s.proc.rpc.RecordRelease? {
      if s.proc.rpc.result == NotReleased {
        RecordKeeps(user, epoch, now, s, PostponeRelease(r, now), s.sessions);
      } else if s.proc.rpc.result == Superseded {
        RecordKeeps(user, epoch, now, s, FinishRelease(r), s.sessions);
      } else {
        RecordKeeps(user, epoch, now, s, FinishRelease(r), CancelUpTo(s.sessions, r.createdAt));
      }
    }
  }

  lemma RecordKeeps(user: int, epoch: nat, now: int, s: MemberState, r: Row, ss: seq<Session>)
    requires MemberInv(user, epoch, now, s) && s.proc.ReleasingRow?
    requires r == FinishRelease(s.rows[s.proc.row]) || r == PostponeRelease(s.rows[s.proc.row], now)
    requires |ss| == |s.sessions| && forall t :: 0 <= t < |ss| ==> Narrowed(s.sessions[t], ss[t])
    ensures MemberInv(user, epoch, now, Drop(Put(s, s.proc.row, r).(sessions := ss)))
  {
    var k := s.proc.row;
    PutKeepsRows(user, epoch, now, s.rows, k, r);
    OwnStays(s.rows, s.rows[k := r], s.sessions);
    NarrowKeeps(now, s.rows[k := r], s.sessions, ss);
  }

  // ---------------------------------------------------------------- every label

  lemma BeginKeeps(user: int, epoch: nat, now: int, s: MemberState, l: Label)
    requires MemberInv(user, epoch, now, s) && s.proc == Idle
    ensures MemberInv(user, epoch, now, Begin(s, l, now))
  {
  }

  lemma ListKeeps(user: int, epoch: nat, now: int, s: MemberState, k: nat)
    requires MemberInv(user, epoch, now, s) && k < |s.rows| && ReleaseDue(s.rows[k], now)
    ensures MemberInv(user, epoch, now, s.(due := s.due + {k}))
  {
  }

  lemma NextKeeps(id: MemberId, g: Group, now: int, s: MemberState, l: Label)
    requires MemberInv(id.user, g.epoch, now, s)
    ensures MemberInv(id.user, g.epoch, now, Next(id, g, now, s, l).0)
  {
    hide MemberInv, Continue, Begin, ReleaseDue;
    match l {
      case Crash => DropKeeps(id.user, g.epoch, now, s);
      case ListDue(k) => if k < |s.rows| && ReleaseDue(s.rows[k], now) { ListKeeps(id.user, g.epoch, now, s, k); }
      case Go(env) => ContinueKeeps(id, g, now, s, env);
      case _ => if s.proc == Idle { BeginKeeps(id.user, g.epoch, now, s, l); }
    }
  }

  lemma ContinueKeeps(id: MemberId, g: Group, now: int, s: MemberState, env: Env)
    requires MemberInv(id.user, g.epoch, now, s)
    ensures MemberInv(id.user, g.epoch, now, Continue(id, g, now, s, env).0)
  {
    hide MemberInv, Prepare, PunishStep, JoinStep, AnswerStep, FinishStep, SelfStep, CancelExternal, ReleaseStep;
    match s.proc {
      case Idle =>
      case Preparing(_, _) => PrepareKeeps(id.user, g.epoch, now, s);
      case Punishing(_) => PunishKeeps(id, g, now, s, env);
      case JoinBusy(_) | JoinRead(_) | JoinInsert(_) => JoinKeeps(id.user, g.epoch, now, s, env);
      case JoinRestrict(_) => JoinKeeps(id.user, g.epoch, now, s, env);
      case AnswerRead(_, _, _, _) | AnswerBusy(_, _, _, _) | AnswerWrite(_, _, _, _) =>
        AnswerKeeps(id.user, g.epoch, now, s);
      case Finishing(_, _) => FinishKeeps(id.user, g, now, s, env);
      case SelfStart(_) | SelfInsert(_) => SelfKeeps(id.user, g, now, s, env);
      case Observing(date) => ObserveKeeps(id.user, g.epoch, now, s, date);
      case ReleasingRow(_, _) => ReleaseKeeps(id.user, g.epoch, now, s, env);
    }
  }

  // ---------------------------------------------------------------- writers without the lock

  lemma TickKeeps(user: int, epoch: nat, now: int, now': int, s: MemberState)
    requires MemberInv(user, epoch, now, s) && now <= now'
    ensures MemberInv(user, epoch, now', s)
  {
  }

  /** Unlocked session updates move open sessions to other open statuses. */
  predicate Shifted(v: Session, v': Session) {
    Narrowed(v, v') && Active(v) == Active(v') && v'.own == v.own && v'.createdAt == v.createdAt
  }

  lemma ShiftKeeps(user: int, epoch: nat, now: int, s: MemberState, ss: seq<Session>)
    requires MemberInv(user, epoch, now, s) && |ss| == |s.sessions|
    requires forall t :: 0 <= t < |ss| ==> Shifted(s.sessions[t], ss[t])
    ensures MemberInv(user, epoch, now, s.(sessions := ss))
  {
    NarrowKeeps(now, s.rows, s.sessions, ss);
    forall at ensures NewerPermission(s.rows, s.sessions, at) == NewerPermission(s.rows, ss, at) {
      ShiftNewer(s.rows, s.sessions, ss, at);
    }
  }

  lemma ShiftNewer(rows: seq<Row>, ss: seq<Session>, ss': seq<Session>, at: int)
    requires |ss'| == |ss| && forall t :: 0 <= t < |ss| ==> Shifted(ss[t], ss'[t])
    ensures NewerPermission(rows, ss, at) == NewerPermission(rows, ss', at)
  {
    if t :| 0 <= t < |ss| && ss[t].createdAt > at && Active(ss[t]) {
      assert Shifted(ss[t], ss'[t]);
    }
    if t :| 0 <= t < |ss'| && ss'[t].createdAt > at && Active(ss'[t]) {
      assert Shifted(ss[t], ss'[t]);
    }
  }

  lemma RevokedRow(user: int, epoch: nat, now: int, r: Row)
    requires RowInv(user, epoch, now, r)
    ensures RowInv(user, epoch + 1, now, RevokeRow(r, now)) && Evolves(r, RevokeRow(r, now))
    ensures StartedPermission(r) == StartedPermission(RevokeRow(r, now))
    ensures ManualActed(r) == ManualActed(RevokeRow(r, now))
  {
  }

  lemma RevokedRun(user: int, epoch: nat, now: int, r: Row, run: Run)
    requires RowInv(user, epoch, now, r) && PunishInv(user, now, r, run)
    ensures PunishInv(user, now, RevokeRow(r, now), run)
  {
  }

  lemma RevokedRows(user: int, epoch: nat, now: int, rows: seq<Row>)
    requires RowsInv(user, epoch, now, rows)
    ensures var rows' := RevokeRows(rows, now);
      && RowsInv(user, epoch + 1, now, rows') && |rows'| == |rows|
      && forall i :: 0 <= i < |rows| ==>
           && Evolves(rows[i], rows'[i]) && StartedPermission(rows[i]) == StartedPermission(rows'[i])
           && (rows'[i].status == Pending ==> rows[i].status == Pending)
           && ManualActed(rows[i]) == ManualActed(rows'[i])
  {
    hide RowInv, StartedPermission, ManualActed;
    var rows' := RevokeRows(rows, now);
    forall i | 0 <= i < |rows|
      ensures RowInv(user, epoch + 1, now, rows'[i]) && Evolves(rows[i], rows'[i])
      ensures StartedPermission(rows[i]) == StartedPermission(rows'[i])
      ensures ManualActed(rows[i]) == ManualActed(rows'[i])
      ensures rows'[i].status == Pending ==> rows[i].status == Pending
    {
      RevokedRow(user, epoch, now, rows[i]);
    }
  }

  lemma RevokeKeeps(user: int, epoch: nat, now: int, s: MemberState)
    requires MemberInv(user, epoch, now, s)
    ensures MemberInv(user, epoch + 1, now, s.(rows := RevokeRows(s.rows, now)))
  {
    hide RowsInv, SessionsInv, OwnInv, PunishInv, StartedPermission, NewerPermission, RevokeRows;
    var rows' := RevokeRows(s.rows, now);
    RevokedRows(user, epoch, now, s.rows);
    OwnStays(s.rows, rows', s.sessions);
    RevokeReads(s, rows');
    if s.proc.Punishing? && PastRead(s.proc.run.pc) {
      OneRevoked(user, epoch, now, s.rows, s.proc.run);
    }
  }

  lemma OneRevoked(user: int, epoch: nat, now: int, rows: seq<Row>, run: Run)
    requires RowsInv(user, epoch, now, rows) && run.k < |rows| && PunishInv(user, now, rows[run.k], run)
    ensures PunishInv(user, now, RevokeRows(rows, now)[run.k], run)
  {
    hide RowInv, PunishInv, RevokeRow;
    RevokedRun(user, epoch, now, rows[run.k], run);
  }

  lemma RevokeReads(s: MemberState, rows': seq<Row>)
    requires |rows'| == |s.rows|
    requires forall i :: 0 <= i < |rows'| ==>
      Evolves(s.rows[i], rows'[i]) && StartedPermission(s.rows[i]) == StartedPermission(rows'[i])
      && (rows'[i].status == Pending ==> s.rows[i].status == Pending)
    ensures TakenOver(rows') ==> TakenOver(s.rows)
    ensures forall at :: NewerPermission(s.rows, s.sessions, at) == NewerPermission(rows', s.sessions, at)
    ensures forall key :: HasKey(s.rows, key) ==> HasKey(rows', key)
    ensures forall t :: SelfUnmuteDone(s.rows, t) ==> SelfUnmuteDone(rows', t)
  {
    forall at ensures NewerPermission(s.rows, s.sessions, at) == NewerPermission(rows', s.sessions, at) {
      if i :| 0 <= i < |rows'| && s.rows[i].createdAt > at && StartedPermission(s.rows[i]) {
        assert rows'[i].createdAt > at && StartedPermission(rows'[i]);
      }
      if i :| 0 <= i < |rows'| && rows'[i].createdAt > at && StartedPermission(rows'[i]) {
        assert s.rows[i].createdAt > at && StartedPermission(s.rows[i]);
      }
    }
    forall key | HasKey(s.rows, key) ensures HasKey(rows', key) {
      assert rows'[KeyIndex(s.rows, key)].key == key;
    }
    forall t | SelfUnmuteDone(s.rows, t) ensures SelfUnmuteDone(rows', t) {
      SelfUnmuteStays(s.rows, rows', t);
    }
  }
}
