/** What the verification programs and the release task do when nothing disturbs them. */
module Progress {
  import opened Domain
  import opened Tables
  import opened Machine
  import opened World
  import opened Runs
  import opened Locked
  import opened Endings
  import opened Recovery

  /** A mute, ban, kick or unmute of the member is waiting to be carried out. */
  predicate Awaited(rows: seq<Row>) {
    exists i :: 0 <= i < |rows| && rows[i].status == Pending && AwaitedRow(rows[i])
  }

  predicate AwaitedRow(r: Row) {
    r.decision.action == Mute || r.decision.action == Ban || r.decision.action == Kick || r.decision.action == Unmute
  }

  lemma AwaitedIsTakenOver(rows: seq<Row>)
    ensures TakenOver(rows) == Awaited(rows)
  {
    if i :| 0 <= i < |rows| && rows[i].status == Pending && Takeover(rows[i].decision.action) {
      assert AwaitedRow(rows[i]);
    }
    if i :| 0 <= i < |rows| && rows[i].status == Pending && AwaitedRow(rows[i]) {
      assert Takeover(rows[i].decision.action);
    }
  }

  // ---------------------------------------------------------------- when a program begins

  /** Each program begins only while no other holds the member's lock, and then: a session will
      last from now for as long as the chat gives; a sweep takes up what is not waiting for an
      answer; a release is taken up once it was listed, and listed once its date has come; and
      a punishment unless there is nothing to do, the session it was for is unknown, or the
      message was punished already and would only be deleted again. */
  lemma ProgramsBegin(id: MemberId, g: Group, now: int, s: MemberState, l: Label)
    requires !l.Go? && !l.Crash?
    ensures var s' := Next(id, g, now, s, l).0;
      if l.ListDue? then
        var k := l.row;
        s' == s.(due := s'.due)
        && s'.due == s.due + if k < |s.rows| && s.rows[k].workflow && s.rows[k].releaseNeeded
                                && s.rows[k].releaseAt.Some? && s.rows[k].releaseAt.value <= now then {k} else {}
      else s' == s.(proc := s'.proc) && (s.proc != Idle ==> s' == s)
    ensures s.proc == Idle ==> Begun(now, s, l, Next(id, g, now, s, l).0.proc)
  {
  }

  predicate Begun(now: int, s: MemberState, l: Label, p: Proc) {
    match l
    case BeginJoin(a, f, d) => p == JoinBusy(Session(false, VPending, 0, a, f, now + d, false, now, map[], 0, false))
    case BeginSelf(a, d) => p == SelfStart(Session(true, VPending, 0, a, FailMute, now + d, false, now, map[], 0, false))
    case BeginAnswer(t, o, a, e) => p == AnswerRead(t, o, a, e)
    case BeginSweep(t) =>
      p == if t < |s.sessions| && s.sessions[t].status != VPending
           then Finishing(Snapshot(t, s.sessions[t].status, s.sessions[t].kickStarted), Enter) else Idle
    case BeginObserve(date) => p == Observing(date)
    case BeginRelease(k) => p == if k in s.due then ReleasingRow(k, LookForNewer) else Idle
    case BeginPunish(key, message, d, source, already, repeat) =>
      var nothing := d.action == Allow || d.action == ShadowLog;
      var unknown := key.SelfUnmute? && forall i :: 0 <= i < |s.rows| ==> s.rows[i].key != key;
      var again := already && (source == Automatic || source == Review) && d.delete && d.action != Ban;
      (p.Preparing? <==> !(nothing || unknown || again)) && (!p.Preparing? ==> p == Idle)
      && (p.Preparing? ==> p.plan.key == key && p.plan.message == message && p.plan.source == source && p.caller == None)
    case _ => p == Idle
  }

  // ---------------------------------------------------------------- Join

  lemma JoinStepped(c: Setting, s: MemberState)
    requires s.proc.JoinBusy? || s.proc.JoinRead? || s.proc.JoinInsert? || s.proc.JoinRestrict?
    ensures Stepped(c, s) == JoinStep(s, c.now, c.env)
  {
    hide PunishStep, FinishStep, JoinStep, AnswerStep, ReleaseStep, SelfStep, Prepare;
  }

  /** A newcomer is restricted under the session that is open for them, or under a new one;
      while a punishment of theirs is waiting, or another end of a session, nothing happens. */
  lemma JoinAlone(c: Setting, s: MemberState, v: Session) returns (s': MemberState)
    requires s.proc == JoinBusy(v)
    ensures s'.rows == s.rows && s'.proc == Idle && s'.due == s.due
    ensures var open := ActiveSession(s.sessions);
      if Awaited(s.rows) || c.env.protected || (open.Some? && s.sessions[open.value].status != VPending) then
        s'.sessions == s.sessions && Leads(c, s, s', [])
      else if open.Some? then
        s'.sessions == s.sessions && Leads(c, s, s', [Sent(FromSession(open.value), Restrict, c.env.outcome)])
      else
        s'.sessions == s.sessions + [NewSession(false, v.answer, v.failAction, v.expiresAt, c.now)]
        && Leads(c, s, s', [Sent(FromSession(|s.sessions|), Restrict, c.env.outcome)])
  {
    hide Leads, Alone, Stepped, TakenOver, Awaited, ActiveSession;
    AwaitedIsTakenOver(s.rows);
    JoinStepped(c, s);
    OneStep(c, s);
    if TakenOver(s.rows) || c.env.protected {
      s' := Drop(s);
      return;
    }
    var read := s.(proc := JoinRead(v));
    JoinStepped(c, read);
    OneStep(c, read);
    var open := ActiveSession(s.sessions);
    var e := Sent(FromSession(if open.Some? then open.value else |s.sessions|), Restrict, c.env.outcome);
    if open.Some? && s.sessions[open.value].status != VPending {
      s' := Drop(s);
      Then(c, s, read, s', [], []);
    } else if open.Some? {
      s' := Restricts(c, s, read, s.(proc := JoinRestrict(open.value)), open.value);
    } else {
      var insert := s.(proc := JoinInsert(v));
      JoinStepped(c, insert);
      OneStep(c, insert);
      var ready := s.(sessions := s.sessions + [NewSession(false, v.answer, v.failAction, v.expiresAt, c.now)],
                      proc := JoinRestrict(|s.sessions|));
      Then(c, read, insert, ready, [], []);
      s' := Restricts(c, s, read, ready, |s.sessions|);
    }
  }

  lemma Restricts(c: Setting, s: MemberState, read: MemberState, ready: MemberState, t: nat) returns (s': MemberState)
    requires Leads(c, s, read, []) && Leads(c, read, ready, []) && ready.proc == JoinRestrict(t)
    ensures s' == ready.(proc := Idle) && Leads(c, s, s', [Sent(FromSession(t), Restrict, c.env.outcome)])
  {
    hide Leads, Alone, Stepped;
    s' := ready.(proc := Idle);
    JoinStepped(c, ready);
    OneStep(c, ready);
    Then(c, s, read, ready, [], []);
    Then(c, s, ready, s', [], [Sent(FromSession(t), Restrict, c.env.outcome)]);
  }

  // ---------------------------------------------------------------- AnswerVerification

  lemma AnswerStepped(c: Setting, s: MemberState)
    requires s.proc.AnswerRead? || s.proc.AnswerBusy? || s.proc.AnswerWrite?
    ensures Stepped(c, s) == (AnswerStep(s, c.now), Quiet)
  {
    hide PunishStep, FinishStep, JoinStep, AnswerStep, ReleaseStep, SelfStep, Prepare;
  }

  /** The answer is not looked at: the session is over, or a punishment is waiting. */
  predicate Unheard(s: MemberState, v: Session) {
    v.status == Verified || v.status == Cancelled || v.status == Releasing || (!v.own && Awaited(s.rows))
  }

  /** An answer that is looked at is judged, unless the session was completed before; a right
      one, and any to a completed session, is followed by the rest of the verification. */
  lemma AnswerAlone(c: Setting, s: MemberState, t: nat, owner: bool, submitted: int, event: Option<int>) returns (s': MemberState)
    requires s.proc == AnswerRead(t, owner, submitted, event) && t < |s.sessions|
    ensures var v := s.sessions[t];
      if Unheard(s, v) then s' == s.(proc := Idle)
      else if v.status == Completing then s' == s.(proc := Finishing(Snapshot(t, Completing, v.kickStarted), Enter))
      else
        |s'.sessions| == |s.sessions| && s' == s.(sessions := s.sessions[t := s'.sessions[t]], proc := s'.proc)
        && Judges(v, owner, submitted, event, c.now, s'.sessions[t], if s'.proc == Idle then Wrong else Correct)
        && (s'.proc != Idle ==> s'.proc == Finishing(Snapshot(t, s'.sessions[t].status, v.kickStarted), Enter))
    ensures Leads(c, s, s', [])
  {
    hide Leads, Alone, Stepped, TakenOver, Awaited, Tables.Answer, Judges;
    var v := s.sessions[t];
    AwaitedIsTakenOver(s.rows);
    AnswerStepped(c, s);
    OneStep(c, s);
    s' := AnswerStep(s, c.now);
    if s'.proc.AnswerBusy? {
      var busy := s';
      AnswerStepped(c, busy);
      OneStep(c, busy);
      s' := AnswerStep(busy, c.now);
      Then(c, s, busy, s', [], []);
    }
    if s'.proc.AnswerWrite? {
      var write := s';
      AnswerStepped(c, write);
      OneStep(c, write);
      s' := AnswerStep(write, c.now);
      Then(c, s, write, s', [], []);
      AnswerJudges(v, owner, submitted, event, c.now);
      KickKept(v, owner, submitted, event, c.now);
    }
  }

  lemma KickKept(v: Session, owner: bool, submitted: int, event: Option<int>, now: int)
    ensures Tables.Answer(v, owner, submitted, event, now).0.kickStarted == v.kickStarted
  {
  }

  // ---------------------------------------------------------------- finishVerification

  lemma FinishStepped(c: Setting, s: MemberState)
    requires s.proc.Finishing?
    ensures Stepped(c, s) == FinishStep(c.g, s, c.now, c.env)
  {
    hide PunishStep, FinishStep, JoinStep, AnswerStep, ReleaseStep, SelfStep, Prepare;
  }

  /** The session as the work leaves it, before its status is written. */
  function Marked(v: Session, ops: seq<SessionOp>): Session {
    if OpMarkKick in ops && v.status == Expiring then v.(kickStarted := true) else v
  }

  /** The permission work is done, call by call. */
  lemma {:induction false} WorkAlone(c: Setting, s: MemberState, v: Snapshot, ops: seq<SessionOp>, to: SessionStatus)
    requires v.token < |s.sessions| && s.proc == Finishing(v, Perform(ops, to))
    requires c.env.outcome == Accepted && (OpConfirm in ops ==> c.env.chatStatus != Kicked)
    ensures Leads(c, s, s.(sessions := s.sessions[v.token := Marked(s.sessions[v.token], ops)], proc := Finishing(v, FinishPc.Write(to))),
                  SentAll(v.token, CallsOfOps(ops)))
    decreases ops
  {
    hide Leads, Alone, Stepped;
    FinishStepped(c, s);
    OneStep(c, s);
    if ops == [] {
      assert s.sessions[v.token := s.sessions[v.token]] == s.sessions;
      assert SentAll(v.token, []) == [];
    } else {
      var row := s.sessions[v.token];
      var next := Stepped(c, s).0;
      var first := if ops[0] == OpMarkKick then BeginKick(row) else row;
      assert next.proc == Finishing(v, Perform(ops[1..], to)) && next.sessions == s.sessions[v.token := first] by {
        assert s.sessions[v.token := row] == s.sessions;
      }
      WorkAlone(c, next, v, ops[1..], to);
      assert next.sessions[v.token := Marked(first, ops[1..])] == s.sessions[v.token := Marked(row, ops)];
      SentMore(v.token, ops);
      var es := if Stepped(c, s).1 == Quiet then [] else [Stepped(c, s).1];
      Then(c, s, next, s.(sessions := s.sessions[v.token := Marked(row, ops)], proc := Finishing(v, FinishPc.Write(to))), es,
           SentAll(v.token, CallsOfOps(ops[1..])));
    }
  }

  lemma SentMore(t: nat, ops: seq<SessionOp>)
    requires ops != []
    ensures SentAll(t, CallsOfOps(ops)) == Acks(t, ops[0]) + SentAll(t, CallsOfOps(ops[1..]))
  {
  }

  /** A finished session, and one whose member waits for a punishment, is left alone. */
  lemma FinishWaits(c: Setting, s: MemberState, v: Snapshot) returns (s': MemberState)
    requires v.token < |s.sessions| && s.proc == Finishing(v, Enter)
    requires Terminal(v.status) || (!s.sessions[v.token].own && Awaited(s.rows))
    ensures s' == s.(proc := Idle) && Leads(c, s, s', [])
  {
    hide Leads, Alone, Stepped, TakenOver, Awaited;
    AwaitedIsTakenOver(s.rows);
    FinishStepped(c, s);
    OneStep(c, s);
    s' := Drop(s);
    if !Terminal(v.status) {
      var busy := s.(proc := Finishing(v, Busy));
      FinishStepped(c, busy);
      OneStep(c, busy);
      Then(c, s, busy, s', [], []);
    }
  }

  /** The session of a join that is to be finished ends as what is read of the member says, with
      exactly the calls that takes. */
  lemma FinishAlone(c: Setting, s: MemberState, v: Snapshot) returns (s': MemberState, to: SessionStatus, calls: seq<Call>)
    requires v.token < |s.sessions| && s.proc == Finishing(v, Enter) && !s.sessions[v.token].own && !Awaited(s.rows)
    requires v.status == Completing || v.status == Expiring || v.status == Releasing
    requires s.sessions[v.token].status == v.status && c.env.outcome == Accepted
    requires v.kickStarted && s.sessions[v.token].failAction == FailKick ==> c.env.chatStatus != Kicked
    ensures EndsBy(v.status, v.kickStarted, s.sessions[v.token].failAction, Authorized(c.g) && c.env.verificationEnabled, c.env,
                   to, calls)
    ensures |s'.sessions| == |s.sessions| && s' == s.(sessions := s.sessions[v.token := s'.sessions[v.token]], proc := Idle)
    ensures s'.sessions[v.token] == s.sessions[v.token].(status := to, kickStarted := s'.sessions[v.token].kickStarted)
    ensures s'.sessions[v.token].kickStarted ==
      (s.sessions[v.token].kickStarted
       || (v.status == Expiring && s.sessions[v.token].failAction == FailKick && calls == [BanMember, UnbanMember]))
    ensures Leads(c, s, s', SentAll(v.token, calls))
  {
    hide Leads, Alone, Stepped, TakenOver, Awaited, FinishPlan, EndsBy, SentAll, CallsOfOps;
    var row := s.sessions[v.token];
    var plan, ops := Plans(c, s, v);
    to, calls := plan.fpc.to, CallsOfOps(ops);
    var written := s.sessions[v.token := Marked(row, ops)];
    var write := s.(sessions := written, proc := Finishing(v, FinishPc.Write(to)));
    WorkAlone(c, s.(proc := plan), v, ops, to);
    Then(c, s, s.(proc := plan), write, [], SentAll(v.token, calls));
    FinishStepped(c, write);
    OneStep(c, write);
    s' := Stepped(c, write).0;
    assert written[v.token := s'.sessions[v.token]] == s.sessions[v.token := s'.sessions[v.token]];
    Then(c, s, write, s', SentAll(v.token, calls), []);
  }

  /** Up to the plan. */
  lemma Plans(c: Setting, s: MemberState, v: Snapshot) returns (plan: Proc, ops: seq<SessionOp>)
    requires v.token < |s.sessions| && s.proc == Finishing(v, Enter) && !s.sessions[v.token].own && !Awaited(s.rows)
    requires v.status == Completing || v.status == Expiring || v.status == Releasing
    ensures plan.Finishing? && plan.fpc.Perform? && plan == Finishing(v, Perform(ops, plan.fpc.to))
    ensures EndsBy(v.status, v.kickStarted, s.sessions[v.token].failAction, Authorized(c.g) && c.env.verificationEnabled, c.env,
                   plan.fpc.to, CallsOfOps(ops))
    ensures OpMarkKick in ops <==>
      v.status == Expiring && s.sessions[v.token].failAction == FailKick && CallsOfOps(ops) == [BanMember, UnbanMember]
    ensures OpConfirm in ops ==> c.env.chatStatus != Kicked || (v.kickStarted && s.sessions[v.token].failAction == FailKick)
    ensures Leads(c, s, s.(proc := plan), [])
  {
    hide Leads, Alone, Stepped, TakenOver, Awaited, FinishPlan, EndsBy;
    AwaitedIsTakenOver(s.rows);
    var fail := s.sessions[v.token].failAction;
    PlanIsMade(v, fail, Authorized(c.g), c.env);
    PlanEndsBy(v, fail, Authorized(c.g), c.env);
    var p := FinishPlan(v, fail, Authorized(c.g), c.env).value;
    plan, ops := Finishing(v, Perform(p.0, p.1)), p.0;
    var (a, b) := (s.(proc := Finishing(v, Busy)), s.(proc := Finishing(v, Plan)));
    FinishStepped(c, s);
    FinishStepped(c, a);
    FinishStepped(c, b);
    OneStep(c, s);
    OneStep(c, a);
    OneStep(c, b);
    Then(c, s, a, b, [], []);
    Then(c, s, b, s.(proc := plan), [], []);
  }

  lemma PlanIsMade(v: Snapshot, fail: FailAction, authorized: bool, env: Env)
    requires v.status == Completing || v.status == Expiring || v.status == Releasing
    ensures FinishPlan(v, fail, authorized, env).Some?
    ensures var ops := FinishPlan(v, fail, authorized, env).value.0;
      && (OpMarkKick in ops <==> v.status == Expiring && fail == FailKick && CallsOfOps(ops) == [BanMember, UnbanMember])
      && (OpConfirm in ops ==> env.chatStatus != Kicked || (v.kickStarted && fail == FailKick))
  {
    hide CallsOfOps, ReleaseKick;
    ShortLists();
    Sums();
  }

  // ---------------------------------------------------------------- finishSelfVerification

  /** Another mute, ban, kick or unmute of the member is waiting. */
  predicate AnotherAwaited(rows: seq<Row>, token: nat) {
    exists i :: 0 <= i < |rows| && rows[i].status == Pending && AwaitedRow(rows[i]) && rows[i].key != SelfUnmute(token)
  }

  lemma AnotherIsBusy(rows: seq<Row>, token: nat)
    ensures SelfBusy(rows, token) == AnotherAwaited(rows, token)
  {
    if i :| 0 <= i < |rows| && rows[i].status == Pending && Takeover(rows[i].decision.action) && rows[i].key != SelfUnmute(token) {
      assert AwaitedRow(rows[i]);
    }
    if i :| 0 <= i < |rows| && rows[i].status == Pending && AwaitedRow(rows[i]) && rows[i].key != SelfUnmute(token) {
      assert Takeover(rows[i].decision.action);
    }
  }

  /** A session that its member asked for goes on to its own unmute when it was completed, the
      chat is approved and the member present, unless another punishment is waiting; otherwise
      it ends without a call. */
  lemma FinishSelfAlone(c: Setting, s: MemberState, v: Snapshot) returns (s': MemberState)
    requires v.token < |s.sessions| && s.proc == Finishing(v, Enter) && s.sessions[v.token].own
    requires v.status == Completing || v.status == Expiring || v.status == Releasing
    requires s.sessions[v.token].status == v.status
    ensures Leads(c, s, s', [])
    ensures var here := c.env.chatStatus == Creator || c.env.chatStatus == Administrator || c.env.chatStatus == Member
                        || c.env.chatStatus == Restricted(true);
      if !Authorized(c.g) || v.status == Releasing then s' == Ends(s, v.token, Cancelled)
      else if v.status == Expiring then s' == Ends(s, v.token, Expired)
      else if !here then s' == Ends(s, v.token, SessionStatus.Left)
      else if AnotherAwaited(s.rows, v.token) then s' == s.(proc := Idle)
      else s' == s.(proc := Preparing(UnmuteOf(v.token, c.now), Some(v)))
  {
    hide Leads, Alone, Stepped, SelfBusy, AnotherAwaited, Authorized;
    AnotherIsBusy(s.rows, v.token);
    var plan := s.(proc := Finishing(v, SelfPlan));
    FinishStepped(c, s);
    OneStep(c, s);
    FinishStepped(c, plan);
    OneStep(c, plan);
    var next := Stepped(c, plan).0;
    Then(c, s, plan, next, [], []);
    FinishStepped(c, next);
    OneStep(c, next);
    s' := Stepped(c, next).0;
    Then(c, s, next, s', [], []);
  }

  function Ends(s: MemberState, t: nat, to: SessionStatus): MemberState
    requires t < |s.sessions|
  {
    s.(sessions := s.sessions[t := s.sessions[t].(status := to)], proc := Idle)
  }

  function UnmuteOf(token: nat, now: int): Row {
    NewRow(SelfUnmute(token), 0, Decision(Unmute, false, 0, SelfVerification), Manual, now)
  }

  /** After its unmute the session is verified exactly if that was carried out. */
  lemma SelfEndsAlone(c: Setting, s: MemberState, v: Snapshot) returns (s': MemberState)
    requires v.token < |s.sessions| && s.proc == Finishing(v, SelfDone) && s.sessions[v.token].status == v.status
    ensures s' == Ends(s, v.token, if Unmuted(s.rows, v.token) then Verified else Cancelled)
    ensures Leads(c, s, s', [])
  {
    hide Leads, Alone, Stepped, SelfUnmuteDone;
    UnmutedIsDone(s.rows, v.token);
    FinishStepped(c, s);
    OneStep(c, s);
    var next := Stepped(c, s).0;
    FinishStepped(c, next);
    OneStep(c, next);
    s' := Stepped(c, next).0;
    Then(c, s, next, s', [], []);
  }

  predicate Unmuted(rows: seq<Row>, token: nat) {
    exists i :: 0 <= i < |rows| && rows[i].key == SelfUnmute(token) && rows[i].status == PunishmentStatus.Done && rows[i].acted
  }

  lemma UnmutedIsDone(rows: seq<Row>, token: nat)
    ensures SelfUnmuteDone(rows, token) == Unmuted(rows, token)
  {
  }

  // ---------------------------------------------------------------- StartSelfVerification

  lemma SelfStepped(c: Setting, s: MemberState)
    requires s.proc.SelfStart? || s.proc.SelfInsert?
    ensures Stepped(c, s) == (SelfStep(c.g, s, c.now, c.env), Quiet)
  {
    hide PunishStep, FinishStep, JoinStep, AnswerStep, ReleaseStep, SelfStep, Prepare;
  }

  /** A member may ask for a session of their own exactly while they are restricted in an
      approved chat, no punishment of theirs is waiting, and no such session is running. */
  predicate MayAsk(c: Setting, s: MemberState) {
    Authorized(c.g) && c.env.chatStatus == Restricted(true) && !Awaited(s.rows)
    && !(exists t :: 0 <= t < |s.sessions| && Active(s.sessions[t]) && s.sessions[t].own
                     && s.sessions[t].status == VPending && c.now < s.sessions[t].expiresAt)
  }

  /** The new session takes the place of whatever was open. */
  lemma StartSelfAlone(c: Setting, s: MemberState, v: Session) returns (s': MemberState)
    requires s.proc == SelfStart(v)
    requires forall t, u :: 0 <= t < u < |s.sessions| ==> !(Active(s.sessions[t]) && Active(s.sessions[u]))
    ensures s'.rows == s.rows && s'.proc == Idle && Leads(c, s, s', [])
    ensures !MayAsk(c, s) ==> s'.sessions == s.sessions
    ensures MayAsk(c, s) ==>
      && |s'.sessions| == |s.sessions| + 1
      && s'.sessions[|s.sessions|] == NewSession(true, v.answer, FailMute, v.expiresAt, c.now)
      && forall t :: 0 <= t < |s.sessions| ==>
           s'.sessions[t] == if Active(s.sessions[t]) then s.sessions[t].(status := Cancelled) else s.sessions[t]
  {
    hide Leads, Alone, Stepped, TakenOver, Awaited;
    AwaitedIsTakenOver(s.rows);
    SelfStepped(c, s);
    OneStep(c, s);
    s' := Stepped(c, s).0;
    if s'.proc.SelfInsert? {
      var insert := s';
      SelfStepped(c, insert);
      OneStep(c, insert);
      s' := Stepped(c, insert).0;
      Then(c, s, insert, s', [], []);
    }
  }

  // ---------------------------------------------------------------- the release task

  lemma ReleaseStepped(c: Setting, s: MemberState)
    requires s.proc.ReleasingRow?
    ensures Stepped(c, s) == ReleaseStep(s, c.now, c.env)
  {
    hide PunishStep, FinishStep, JoinStep, AnswerStep, ReleaseStep, SelfStep, Prepare;
  }

  /** Something newer than the restriction holds: a mute, ban, kick, unmute or unban that was
      started and has not failed, or an open session. */
  predicate Newer(s: MemberState, at: int) {
    (exists i :: 0 <= i < |s.rows| && s.rows[i].createdAt > at && StartedRow(s.rows[i]))
    || (exists t :: 0 <= t < |s.sessions| && s.sessions[t].createdAt > at && Active(s.sessions[t]))
  }

  predicate StartedRow(r: Row) {
    r.workflow && r.started && r.status != Failed
    && (AwaitedRow(r) || r.decision.action == Unban)
  }

  lemma NewerIsNewer(s: MemberState, at: int)
    ensures NewerPermission(s.rows, s.sessions, at) == Newer(s, at)
  {
    if i :| 0 <= i < |s.rows| && s.rows[i].createdAt > at && StartedPermission(s.rows[i]) {
      assert StartedRow(s.rows[i]);
    }
    if i :| 0 <= i < |s.rows| && s.rows[i].createdAt > at && StartedRow(s.rows[i]) {
      assert StartedPermission(s.rows[i]);
    }
  }

  /** A due release restores the member, by the call that undoes the restriction, and closes
      the sessions it covers; it yields to anything newer, and a refused call is tried again
      after 30 seconds. */
  lemma ReleaseAlone(c: Setting, s: MemberState, k: nat) returns (s': MemberState)
    requires k < |s.rows| && s.proc == ReleasingRow(k, LookForNewer) && c.env.outcome != Unknown
    ensures var r := s.rows[k];
      var e := Sent(FromRelease(k), if r.decision.action == Mute then Restore else UnbanMember, c.env.outcome);
      && s'.proc == Idle && |s'.rows| == |s.rows| && s'.rows == s.rows[k := s'.rows[k]] && |s'.sessions| == |s.sessions|
      && if Newer(s, r.createdAt) then
           s'.rows[k] == r.(releaseNeeded := false, settled := true) && s'.sessions == s.sessions && Leads(c, s, s', [])
         else if c.env.outcome == Accepted then
           s'.rows[k] == r.(releaseNeeded := false, settled := true) && Leads(c, s, s', [e])
           && forall t :: 0 <= t < |s.sessions| ==>
                s'.sessions[t] == if Active(s.sessions[t]) && s.sessions[t].createdAt <= r.createdAt
                                  then s.sessions[t].(status := Cancelled) else s.sessions[t]
         else
           s'.rows[k] == r.(releaseAt := Some(c.now + 30 * SECOND)) && s'.sessions == s.sessions && Leads(c, s, s', [e])
  {
    hide Leads, Alone, Stepped, NewerPermission, Newer;
    var r := s.rows[k];
    NewerIsNewer(s, r.createdAt);
    ReleaseStepped(c, s);
    OneStep(c, s);
    var next := Stepped(c, s).0;
    if Newer(s, r.createdAt) {
      s' := Records(c, s, k, Superseded);
      Then(c, s, next, s', [], []);
    } else {
      ReleaseStepped(c, next);
      OneStep(c, next);
      var result := if c.env.outcome == Accepted then Restored else NotReleased;
      var e := Sent(FromRelease(k), if r.decision.action == Mute then Restore else UnbanMember, c.env.outcome);
      Then(c, s, next, s.(proc := ReleasingRow(k, RecordRelease(result))), [], [e]);
      s' := Records(c, s, k, result);
      Then(c, s, s.(proc := ReleasingRow(k, RecordRelease(result))), s', [e], []);
    }
  }

  lemma Records(c: Setting, s: MemberState, k: nat, result: ReleaseResult) returns (s': MemberState)
    requires k < |s.rows|
    ensures Leads(c, s.(proc := ReleasingRow(k, RecordRelease(result))), s', [])
    ensures s'.proc == Idle && |s'.rows| == |s.rows| && |s'.sessions| == |s.sessions|
    ensures result == NotReleased ==>
      s'.rows == s.rows[k := s.rows[k].(releaseAt := Some(c.now + 30 * SECOND))] && s'.sessions == s.sessions
    ensures result != NotReleased ==> s'.rows == s.rows[k := s.rows[k].(releaseNeeded := false, settled := true)]
    ensures result == Superseded ==> s'.sessions == s.sessions
    ensures result == Restored ==>
      forall t :: 0 <= t < |s.sessions| ==>
        s'.sessions[t] == if Active(s.sessions[t]) && s.sessions[t].createdAt <= s.rows[k].createdAt
                          then s.sessions[t].(status := Cancelled) else s.sessions[t]
  {
    hide Leads, Alone, Stepped;
    var a := s.(proc := ReleasingRow(k, RecordRelease(result)));
    ReleaseStepped(c, a);
    OneStep(c, a);
    s' := Stepped(c, a).0;
  }

  // ---------------------------------------------------------------- other writers

  /** An administrator's own act ends every session of the member that was created before the
      end of the second it is dated, except one that is being released. */
  lemma ObserveAlone(c: Setting, s: MemberState, date: int) returns (s': MemberState)
    requires s.proc == Observing(date)
    ensures s'.rows == s.rows && s'.proc == Idle && |s'.sessions| == |s.sessions| && Leads(c, s, s', [])
    ensures forall t :: 0 <= t < |s.sessions| ==>
      var st := s.sessions[t].status;
      s'.sessions[t] == if s.sessions[t].createdAt < (date + 1) * SECOND
                           && (st == VPending || st == Expiring || st == Completing || st == Expired)
                        then s.sessions[t].(status := Cancelled) else s.sessions[t]
  {
    hide Leads, Alone;
    OneStep(c, s);
    s' := Stepped(c, s).0;
  }

  /** Exactly the pending sessions whose time is over begin to expire. */
  lemma ExpiryIsDue(w: World, id: MemberId, t: nat)
    requires t < |SessionsOf(w, id)|
    ensures t < |SessionsOf(Apply(w, ExpireSessions), id)|
    ensures var v := SessionsOf(w, id)[t];
      SessionsOf(Apply(w, ExpireSessions), id)[t]
        == if v.status == VPending && v.expiresAt <= w.now then v.(status := Expiring) else v
  {
  }
}
