/** No restriction is lifted before its time. */
module DueDates {
  import opened Domain
  import opened Tables
  import opened Machine
  import opened Invariant
  import opened Effects
  import opened World
  import opened Runs
  import opened Receipts

  /** The restriction of a punishment may be lifted at a time: the bot lost its approval after
      that punishment had begun, or it is a mute with an end, and that has come. */
  predicate Ended(r: Row, at: int) {
    r.revoked
    || (r.decision.action == Mute && r.decision.reason != LocalAdReview && r.createdAt + r.decision.duration * SECOND <= at)
  }

  predicate Dated(r: Row) {
    r.releaseNeeded ==> r.releaseAt.Some? && Ended(r, r.releaseAt.value)
  }

  ghost predicate Dates(s: MemberState, now: int) {
    && (forall k :: 0 <= k < |s.rows| ==> Dated(s.rows[k]))
    && (forall k :: k in s.due ==> k < |s.rows| && Ended(s.rows[k], now))
    && (s.proc.ReleasingRow? ==> s.proc.row < |s.rows| && Ended(s.rows[s.proc.row], now))
  }

  // ---------------------------------------------------------------- one row

  predicate KeepsDate(r: Row, r': Row) {
    && r'.decision == r.decision && r'.createdAt == r.createdAt && (r.revoked ==> r'.revoked)
    && (Dated(r) ==> Dated(r'))
  }

  lemma SameDate(r: Row)
    ensures KeepsDate(r, r) && KeepsDate(r, MarkKickBanned(r)) && KeepsDate(r, r.(unbanned := true))
  {
  }

  lemma Untouched(r: Row, r': Row)
    requires r'.decision == r.decision && r'.createdAt == r.createdAt && r'.revoked == r.revoked
    requires r'.releaseNeeded == r.releaseNeeded && r'.releaseAt == r.releaseAt
    ensures KeepsDate(r, r')
  {
  }

  lemma WorkflowDate(g: Group, r: Row)
    ensures KeepsDate(r, InsertWorkflow(g, r))
  {
  }

  /** The release of a timed mute is stored for its end. */
  lemma StartDate(g: Group, r: Row)
    ensures var r' := StartPermission(g, r, Until(r)); r'.Some? ==> KeepsDate(r, r'.value)
  {
    if AuthorityHolds(g, r) && TimedMute(r.decision) {
      assert StartPermission(g, r, Until(r)) == Some(r.(started := true, releaseNeeded := true, releaseAt := Some(Deadline(r))));
    } else if AuthorityHolds(g, r) {
      assert StartPermission(g, r, Until(r)) == Some(r.(started := true));
    }
  }

  lemma NotedDate(r: Row, o: Outcome, u: Option<int>)
    ensures KeepsDate(r, Noted(r, o, u))
  {
    hide KeepsDate, Machine.Later;
    Untouched(r, Noted(r, o, u));
  }

  lemma DeletedDate(r: Row)
    ensures KeepsDate(r, StepDeleted(r))
  {
    hide KeepsDate;
    if r.status == Pending {
      assert StepDeleted(r) == r.(deleted := true);
    }
    Untouched(r, StepDeleted(r));
  }

  lemma ActedDate(r: Row)
    ensures KeepsDate(r, StepActed(r))
  {
    hide KeepsDate;
    if r.status == Pending {
      assert StepActed(r) == r.(acted := true);
    }
    Untouched(r, StepActed(r));
  }

  lemma DoneDate(r: Row)
    ensures KeepsDate(r, StepDone(r))
  {
    hide KeepsDate;
    if r.status == Pending {
      assert StepDone(r) == r.(status := Done);
    }
    Untouched(r, StepDone(r));
  }

  lemma SkippedDate(r: Row)
    ensures KeepsDate(r, StepSkipped(r))
  {
    hide KeepsDate;
    if r.status == Pending {
      assert StepSkipped(r) == r.(status := Skipped);
    }
    Untouched(r, StepSkipped(r));
  }

  lemma FailedDate(r: Row)
    ensures KeepsDate(r, FailPunishment(r))
  {
    hide KeepsDate;
    if r.status == Pending {
      assert FailPunishment(r) == r.(status := Failed);
    }
    Untouched(r, FailPunishment(r));
  }

  lemma RejectedDate(r: Row)
    ensures KeepsDate(r, RejectPunishment(r))
  {
  }

  lemma RevokedDate(r: Row, now: int)
    ensures KeepsDate(r, RevokeRow(r, now))
  {
    hide KeepsDate;
    if r.status != Pending {
      assert RevokeRow(r, now) == r;
      SameDate(r);
    } else if r.workflow && r.started && Restricting(r.decision.action) {
      assert RevokeRow(r, now) == r.(status := Skipped, releaseNeeded := true, releaseAt := Some(now), revoked := true);
      CutOffDate(r, now);
    } else {
      assert RevokeRow(r, now) == r.(status := Skipped);
      Untouched(r, r.(status := Skipped));
    }
  }

  lemma CutOffDate(r: Row, now: int)
    ensures KeepsDate(r, r.(status := Skipped, releaseNeeded := true, releaseAt := Some(now), revoked := true))
  {
  }

  lemma PostponedDate(r: Row, now: int)
    requires Ended(r, now)
    ensures KeepsDate(r, PostponeRelease(r, now)) && KeepsDate(r, FinishRelease(r))
  {
  }

  // ---------------------------------------------------------------- punishLocked

  /** A step of a punishment's program keeps the date of every row, and lists nothing. */
  predicate KeepsDates(s: MemberState, s': MemberState, k: nat) {
    && |s'.rows| == |s.rows| && s'.due == s.due && !s'.proc.ReleasingRow?
    && (k < |s.rows| ==> KeepsDate(s.rows[k], s'.rows[k]))
  }

  lemma ReadsKeepDue(user: int, s: MemberState, run: Run, r: Row, now: int)
    requires !s.proc.ReleasingRow?
    ensures EnterAction(s, run, r, now).due == s.due && !EnterAction(s, run, r, now).proc.ReleasingRow?
    ensures ReadSnapshot(user, s, run, r).due == s.due && !ReadSnapshot(user, s, run, r).proc.ReleasingRow?
    ensures Approach(s, run, r, now).due == s.due && !Approach(s, run, r, now).proc.ReleasingRow?
    ensures AfterSenderDelete(s, run, r).due == s.due && !AfterSenderDelete(s, run, r).proc.ReleasingRow?
  {
  }

  lemma PreflightDates(id: MemberId, g: Group, now: int, s: MemberState, run: Run, r: Row, env: Env, k: nat)
    requires s.proc == Punishing(run) && run.k < |s.rows| && r == s.rows[run.k]
    ensures KeepsDates(s, PreflightStep(id, g, now, s, run, r, env), k)
  {
    hide KeepsDate, InsertWorkflow, StepSkipped, EnterAction, ReadSnapshot, NewerManual;
    WorkflowDate(g, r);
    SkippedDate(r);
    if k < |s.rows| {
      SameDate(s.rows[k]);
    }
    ReadsWriteNothing(id.user, s, run, r, now);
    ReadsKeepDue(id.user, s, run, r, now);
  }

  lemma DeleteDates(now: int, s: MemberState, run: Run, r: Row, env: Env, k: nat)
    requires s.proc == Punishing(run) && run.k < |s.rows| && r == s.rows[run.k]
    ensures KeepsDates(s, DeleteStep(now, s, run, r, env).0, k)
  {
    hide KeepsDate, StepDeleted, Approach;
    DeletedDate(r);
    if k < |s.rows| {
      SameDate(s.rows[k]);
    }
    ReadsWriteNothing(0, Put(s, run.k, StepDeleted(r)), run, r, now);
    ReadsKeepDue(0, Put(s, run.k, StepDeleted(r)), run, r, now);
  }

  lemma StartDates(g: Group, now: int, s: MemberState, run: Run, r: Row, env: Env, k: nat)
    requires s.proc == Punishing(run) && run.k < |s.rows| && r == s.rows[run.k]
    ensures KeepsDates(s, StartStep(g, now, s, run, r), k)
  {
    hide KeepsDate, StartPermission, FailPunishment, Until, Seconds;
    StartDate(g, r);
    FailedDate(r);
    if k < |s.rows| {
      SameDate(s.rows[k]);
    }
  }

  lemma CallDates(now: int, s: MemberState, run: Run, r: Row, env: Env, k: nat)
    requires s.proc == Punishing(run) && run.k < |s.rows| && r == s.rows[run.k]
    ensures KeepsDates(s, DoMainCall(now, s, run, r, env).0, k)
  {
    hide KeepsDate, Noted, MainCallOf, UntilDate;
    NotedDate(r, env.outcome, UntilDate(now, run.seconds));
    if k < |s.rows| {
      SameDate(s.rows[k]);
    }
  }

  lemma KickDates(s: MemberState, run: Run, r: Row, env: Env, k: nat)
    requires s.proc == Punishing(run) && run.k < |s.rows| && r == s.rows[run.k]
    ensures KeepsDates(s, KickStep(s, run, r, env).0, k)
  {
    hide KeepsDate, Noted, MarkKickBanned;
    NotedDate(r, env.outcome, None);
    SameDate(r);
    if k < |s.rows| {
      SameDate(s.rows[k]);
    }
  }

  lemma TakeoverDates(g: Group, rows: seq<Row>, sessions: seq<Session>, n: nat, k: nat)
    requires n < |rows| && k < |rows|
    ensures var t := CompleteTakeover(g, rows, sessions, n);
      t.Some? ==> |t.value.0| == |rows| && KeepsDate(rows[k], t.value.0[k])
  {
    hide KeepsDate, StepActed, StepSkipped, AuthorityHolds, CancelAllBut;
    ActedDate(rows[n]);
    SkippedDate(rows[k]);
    SameDate(rows[k]);
  }

  lemma CommitDates(g: Group, s: MemberState, run: Run, r: Row, k: nat)
    requires s.proc == Punishing(run) && run.k < |s.rows| && r == s.rows[run.k]
    ensures KeepsDates(s, DoComplete(g, s, run, r), k)
  {
    hide KeepsDate, CompleteTakeover, StepActed;
    ActedDate(r);
    TakeoverLength(g, s.rows, s.sessions, run.k);
    if k < |s.rows| {
      SameDate(s.rows[k]);
      TakeoverDates(g, s.rows, s.sessions, run.k, k);
    }
  }

  lemma TailDates(s: MemberState, run: Run, r: Row, env: Env, k: nat)
    requires s.proc == Punishing(run) && run.k < |s.rows| && r == s.rows[run.k]
    ensures KeepsDates(s, TailStep(s, run, r, env).0, k)
  {
    hide KeepsDate, StepDeleted, StepDone, RejectPunishment, NewerManual;
    DeletedDate(r);
    DoneDate(r);
    RejectedDate(r);
    if k < |s.rows| {
      SameDate(s.rows[k]);
    }
  }

  lemma SenderDates(s: MemberState, run: Run, r: Row, env: Env, k: nat)
    requires s.proc == Punishing(run) && run.k < |s.rows| && r == s.rows[run.k]
    ensures KeepsDates(s, SenderStep(s, run, r, env).0, k)
  {
    hide KeepsDate, StepDeleted, StepActed, AfterSenderDelete;
    DeletedDate(r);
    ActedDate(r);
    if k < |s.rows| {
      SameDate(s.rows[k]);
    }
    ReadsWriteNothing(0, Put(s, run.k, StepDeleted(r)), run, r, 0);
    ReadsKeepDue(0, Put(s, run.k, StepDeleted(r)), run, r, 0);
  }

  lemma PunishDates(id: MemberId, g: Group, now: int, s: MemberState, env: Env, k: nat)
    requires s.proc.Punishing?
    ensures KeepsDates(s, PunishStep(id, g, now, s, env).0, k)
  {
    hide KeepsDates, PreflightStep, DeleteStep, StartStep, DoMainCall, KickStep, DoComplete, TailStep, SenderStep;
    var run := s.proc.run;
    if run.k >= |s.rows| {
      Abandoned(s, k);
    } else {
      var r := s.rows[run.k];
      PreflightDates(id, g, now, s, run, r, env, k);
      DeleteDates(now, s, run, r, env, k);
      StartDates(g, now, s, run, r, env, k);
      CallDates(now, s, run, r, env, k);
      KickDates(s, run, r, env, k);
      CommitDates(g, s, run, r, k);
      TailDates(s, run, r, env, k);
      SenderDates(s, run, r, env, k);
    }
  }

  lemma Abandoned(s: MemberState, k: nat)
    ensures KeepsDates(s, Drop(s), k)
  {
  }

  // ---------------------------------------------------------------- the other programs

  /** Any other program lists only what is due, and takes only what is listed. */
  predicate TakesDue(s: MemberState, s': MemberState, l: Label, now: int) {
    && (forall k :: k in s'.due ==> k in s.due || (k < |s.rows| && ReleaseDue(s.rows[k], now)))
    && (s'.proc.ReleasingRow? ==> s'.proc.row in s.due || (s.proc.ReleasingRow? && s'.proc.row == s.proc.row))
  }

  lemma OthersTakeDue(id: MemberId, g: Group, now: int, s: MemberState, l: Label)
    requires !(l.Go? && s.proc.Punishing?)
    ensures TakesDue(s, Next(id, g, now, s, l).0, l, now)
  {
    hide PunishStep, CreateSelfSession, CreateSession, TakenOver, NewerPermission, CancelExternal, CancelUpTo, Answer,
         ActiveSession, FinishPlan, SelfBusy, SelfUnmuteDone, ReleaseDue;
  }

  /** A row that is new carries no release. */
  lemma OthersAddPlain(id: MemberId, g: Group, now: int, s: MemberState, l: Label, k: nat)
    requires MemberInv(id.user, g.epoch, now, s) && !(l.Go? && s.proc.Punishing?)
    requires |s.rows| <= k < |Next(id, g, now, s, l).0.rows|
    ensures !Next(id, g, now, s, l).0.rows[k].releaseNeeded
  {
    hide RowsInv, SessionsInv, OwnInv, PunishStep, FinishStep, ReleaseStep, AnswerStep, JoinStep, SelfStep, CancelExternal;
    if l.Go? {
      if s.proc.Finishing? {
        FinishKeepsRows(g, s, now, l.env);
      } else if s.proc.ReleasingRow? {
        ReleaseAddsNone(s, now, l.env);
      } else {
        JoinersKeepRows(g, s, now, l.env);
      }
    }
  }

  lemma ReleaseAddsNone(s: MemberState, now: int, env: Env)
    requires s.proc.ReleasingRow?
    ensures |ReleaseStep(s, now, env).0.rows| == |s.rows|
  {
    hide NewerPermission, CancelUpTo;
  }

  // ---------------------------------------------------------------- runs

  lemma {:induction false} Always(w: World, ms: seq<Move>, id: MemberId)
    requires Inv(w) && Dates(MemberOf(w, id), w.now)
    ensures Dates(MemberOf(Exec(w, ms), id), Exec(w, ms).now)
    decreases |ms|
  {
    hide Inv, Apply, Dates;
    if ms != [] {
      ApplyKeeps(w, ms[0]);
      OneMove(w, ms[0], id);
      Always(Apply(w, ms[0]), ms[1..], id);
    }
  }

  lemma OneMove(w: World, m: Move, id: MemberId)
    requires Inv(w) && Dates(MemberOf(w, id), w.now)
    ensures Dates(MemberOf(Apply(w, m), id), Apply(w, m).now)
  {
    hide Dates, Inv, Next;
    var (s, g) := (MemberOf(w, id), GroupOf(w, id.chat));
    if m.Step? && m.id == id {
      assert MemberInv(id.user, g.epoch, w.now, s) by { Known(w, id); }
      if m.l.Go? && s.proc.Punishing? {
        PunishKeepsDates(id, g, w.now, s, m.l.env);
      } else {
        OthersKeepDates(id, g, w.now, s, m.l);
      }
    } else {
      ForeignKeepsDates(w, m, id);
    }
  }

  lemma Known(w: World, id: MemberId)
    requires Inv(w)
    ensures MemberInv(id.user, GroupOf(w, id.chat).epoch, w.now, MemberOf(w, id))
  {
  }

  lemma PunishKeepsDates(id: MemberId, g: Group, now: int, s: MemberState, env: Env)
    requires s.proc.Punishing? && Dates(s, now)
    ensures Dates(Next(id, g, now, s, Go(env)).0, now)
  {
    hide PunishStep, KeepsDate, Ended, Dated;
    var s' := PunishStep(id, g, now, s, env).0;
    PunishDates(id, g, now, s, env, |s.rows|);
    forall k | 0 <= k < |s.rows| ensures Dated(s'.rows[k]) && (Ended(s.rows[k], now) ==> Ended(s'.rows[k], now)) {
      PunishDates(id, g, now, s, env, k);
      Carries(s.rows[k], s'.rows[k], now, now);
    }
  }

  lemma Carries(r: Row, r': Row, at: int, at': int)
    requires KeepsDate(r, r') && at <= at'
    ensures (Dated(r) ==> Dated(r')) && (Ended(r, at) ==> Ended(r', at'))
  {
  }

  lemma OthersKeepDates(id: MemberId, g: Group, now: int, s: MemberState, l: Label)
    requires MemberInv(id.user, g.epoch, now, s) && !(l.Go? && s.proc.Punishing?) && Dates(s, now)
    ensures Dates(Next(id, g, now, s, l).0, now)
  {
    hide Next, MemberInv, KeepsDate, Ended, Dated, PostponeRelease, FinishRelease, ReleaseDue;
    var s' := Next(id, g, now, s, l).0;
    OthersTakeDue(id, g, now, s, l);
    forall k | 0 <= k < |s.rows|
      ensures k < |s'.rows| && Dated(s'.rows[k]) && (Ended(s.rows[k], now) ==> Ended(s'.rows[k], now))
      ensures ReleaseDue(s.rows[k], now) ==> Ended(s.rows[k], now)
    {
      OthersKeepRow(id, g, now, s, l, k);
      SameDate(s.rows[k]);
      if s.proc.ReleasingRow? && s.proc.row == k {
        PostponedDate(s.rows[k], now);
      }
      Carries(s.rows[k], s'.rows[k], now, now);
      if ReleaseDue(s.rows[k], now) {
        DueIsEnded(s.rows[k], now);
      }
    }
    forall k | |s.rows| <= k < |s'.rows| ensures Dated(s'.rows[k]) {
      OthersAddPlain(id, g, now, s, l, k);
      NotNeeded(s'.rows[k]);
    }
  }

  lemma DueIsEnded(r: Row, now: int)
    requires Dated(r) && ReleaseDue(r, now)
    ensures Ended(r, now)
  {
  }

  lemma NotNeeded(r: Row)
    requires !r.releaseNeeded
    ensures Dated(r)
  {
  }

  lemma ForeignKeepsDates(w: World, m: Move, id: MemberId)
    requires !(m.Step? && m.id == id) && Dates(MemberOf(w, id), w.now)
    ensures Dates(MemberOf(Apply(w, m), id), Apply(w, m).now)
  {
    hide Next, KeepsDate, Ended, Dated, RevokeRow, ReleaseSessions, Authorized;
    var (s, s') := (MemberOf(w, id), MemberOf(Apply(w, m), id));
    assert s'.due == s.due && s'.proc == s.proc && |s'.rows| == |s.rows| && w.now <= Apply(w, m).now;
    forall k | 0 <= k < |s.rows|
      ensures Dated(s'.rows[k]) && (Ended(s.rows[k], w.now) ==> Ended(s'.rows[k], Apply(w, m).now))
    {
      SameDate(s.rows[k]);
      RevokedDate(s.rows[k], w.now);
      assert s'.rows[k] == s.rows[k] || s'.rows[k] == RevokeRow(s.rows[k], w.now);
      Carries(s.rows[k], s'.rows[k], w.now, Apply(w, m).now);
    }
  }

  lemma EverywhereDated(w: World, id: MemberId)
    requires Reachable(w)
    ensures Dates(MemberOf(w, id), w.now)
  {
    hide Inv, Apply;
    var now, ms :| Exec(Empty(now), ms) == w;
    EmptyInv(now);
    Always(Empty(now), ms, id);
  }

  /** A stored release has a date, and by then there is something to lift: either approval was
      lost after the punishment had begun, or it is a mute with an end, and that has come. */
  lemma ReleaseIsDated(w: World, id: MemberId, k: nat)
    requires Reachable(w) && k < |RowsOf(w, id)| && RowsOf(w, id)[k].releaseNeeded
    ensures RowsOf(w, id)[k].releaseAt.Some? && Ended(RowsOf(w, id)[k], RowsOf(w, id)[k].releaseAt.value)
  {
    EverywhereDated(w, id);
  }

  /** No restriction is lifted by the bot before its time: whatever happens, a release call goes
      out only for a mute whose end has come, or for what a loss of approval cut off. A ban, a
      kick, or a mute that waits for review is never lifted otherwise. */
  lemma NotBeforeItsTime(w: World, m: Move, id: MemberId, k: nat, c: Call, o: Outcome)
    requires Reachable(w) && EffectOn(w, m, id) == Sent(FromRelease(k), c, o)
    ensures k < |RowsOf(w, id)| && Ended(RowsOf(w, id)[k], w.now)
  {
    hide Inv, Ended;
    ReachableInv(w);
    ApplyEffect(w, m, id);
    EverywhereDated(w, id);
  }
}
