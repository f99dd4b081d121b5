/** Outcomes of a punishment, over whole runs. */
module Saga {
  import opened Domain
  import opened Tables
  import opened Machine
  import opened Invariant
  import opened Preservation
  import opened Evolution
  import opened Effects
  import opened World
  import opened Runs
  import opened Receipts
  import opened Revocation

  // ---------------------------------------------------------------- status and flags

  /** The status leaves `pending` at most once; what was recorded by then is final. */
  lemma OutcomeIsFinal(w: World, id: MemberId, k: nat, ms: seq<Move>)
    requires Reachable(w) && k < |RowsOf(w, id)| && RowsOf(w, id)[k].status != Pending
    ensures k < |RowsOf(Exec(w, ms), id)|
    ensures var (r, r') := (RowsOf(w, id)[k], RowsOf(Exec(w, ms), id)[k]);
      && r'.status == r.status && r'.started == r.started && r'.acted == r.acted && r'.deleted == r.deleted
  {
    ReachableInv(w);
    FrozenRow(w, ms, id, k);
  }

  /** What the stored flags of a punishment of a user imply. */
  lemma OutcomeIsHonest(w: World, id: MemberId, k: nat)
    requires Reachable(w) && k < |RowsOf(w, id)|
    ensures var r := RowsOf(w, id)[k];
      && (r.status == Done && id.user >= 0 ==> r.acted && (WantsDelete(r) ==> r.deleted))
      && (r.acted && Permission(r.decision.action) ==> r.started && r.sent)
      && (r.acted ==> r.status != Failed)
      && (r.status == Failed && r.sent ==> TimedMute(r.decision) && Deadline(r) - w.now < SECOND)
  {
    ReachableInv(w);
    RowFacts(w, id, k);
  }

  // ---------------------------------------------------------------- rejection

  /** The move sends a permission call of row k with this answer. */
  predicate Calls(w: World, m: Move, id: MemberId, k: nat, o: Outcome) {
    var e := EffectOn(w, m, id);
    e.Sent? && e.origin == FromPunishment(k) && PermissionCall(e.call) && e.outcome == o
  }

  lemma CallIsNoted(w: World, m: Move, id: MemberId, k: nat, o: Outcome)
    requires Inv(w) && Calls(w, m, id, k, o) && o != Rejected
    ensures k < |RowsOf(Apply(w, m), id)| && RowsOf(Apply(w, m), id)[k].sent
  {
    hide Next;
    ApplyEffect(w, m, id);
  }

  /** A punishment failed by RejectPunishment never took effect: in the whole run, over
      all its retries and crashes, each permission call it sent was definitely rejected. */
  lemma RejectedHadNoEffect(now: int, ms: seq<Move>, id: MemberId, k: nat, i: nat, o: Outcome)
    requires k < |RowsOf(Exec(Empty(now), ms), id)| && RowsOf(Exec(Empty(now), ms), id)[k].rejected
    requires i < |ms| && Calls(Before(Empty(now), ms, i), ms[i], id, k, o)
    ensures o == Rejected
  {
    hide Apply, Calls;
    var w := Empty(now);
    EmptyInv(now);
    InvAlong(w, ms, i);
    InvAlong(w, ms, i + 1);
    ExecKeeps(w, ms);
    Along(w, ms, i);
    if o != Rejected {
      CallIsNoted(Before(w, ms, i), ms[i], id, k, o);
      RowsEvolve(Before(w, ms, i + 1), ms[i + 1..], id, k);
      RowFacts(Exec(w, ms), id, k);
      assert false;
    }
  }

  /** And the converse, as far as stored: every acknowledged or unknown permission call
      is remembered for good. */
  lemma EffectIsRemembered(now: int, ms: seq<Move>, id: MemberId, k: nat, i: nat, o: Outcome)
    requires i < |ms| && Calls(Before(Empty(now), ms, i), ms[i], id, k, o) && o != Rejected
    ensures k < |RowsOf(Exec(Empty(now), ms), id)| && RowsOf(Exec(Empty(now), ms), id)[k].sent
  {
    hide Apply, Calls;
    var w := Empty(now);
    EmptyInv(now);
    InvAlong(w, ms, i);
    InvAlong(w, ms, i + 1);
    Along(w, ms, i);
    CallIsNoted(Before(w, ms, i), ms[i], id, k, o);
    RowsEvolve(Before(w, ms, i + 1), ms[i + 1..], id, k);
  }

  /** History is honest: a row is marked as sent only by such a call. */
  lemma SentArises(w: World, m: Move, id: MemberId, k: nat)
    requires Inv(w) && k < |RowsOf(Apply(w, m), id)| && RowsOf(Apply(w, m), id)[k].sent
    requires !(k < |RowsOf(w, id)| && RowsOf(w, id)[k].sent)
    ensures Calls(w, m, id, k, Accepted) || Calls(w, m, id, k, Unknown)
  {
    hide Next;
    if |RowsOf(w, id)| <= k {
      NewRows(w, m, id, k);
    } else if m.Step? && m.id == id {
      var (s, g) := (MemberOf(w, id), GroupOf(w, id.chat));
      if m.l.Go? && s.proc.Punishing? {
        PunishSends(id, g, w.now, s, m.l.env, k);
      } else {
        OthersSendNone(id, g, w.now, s, m.l, k);
      }
    }
  }

  /** If row k became sent, or its date changed, the step made a call of it that was not
      rejected, and the date is the one of that call. */
  predicate SendsBy(now: int, s: MemberState, r: Result, env: Env, k: nat)
    requires s.proc.Punishing?
  {
    k < |s.rows| && k < |r.0.rows|
    && ((!s.rows[k].sent && r.0.rows[k].sent) || r.0.rows[k].until != s.rows[k].until) ==>
      && r.1.Sent? && r.1.origin == FromPunishment(k) && PermissionCall(r.1.call)
      && r.1.outcome == env.outcome != Rejected
      && (r.0.rows[k].until == s.rows[k].until || r.0.rows[k].until == None
          || (r.0.rows[k].until == UntilDate(now, s.proc.run.seconds)
              && (env.outcome == Unknown ==> Extends(s.rows[k].until, r.0.rows[k].until))))
  }

  /** Of two dates the later one is kept. */
  predicate Extends(a: Option<int>, b: Option<int>) {
    a.Some? && b.Some? ==> a.value < b.value
  }

  predicate SameMarks(r: Row, r': Row) {
    r'.sent == r.sent && r'.until == r.until
  }

  // Only Noted touches the marks.

  lemma WorkflowMark(r: Row, g: Group)
    ensures SameMarks(r, InsertWorkflow(g, r))
  {
  }

  lemma BannedMark(r: Row)
    ensures SameMarks(r, MarkKickBanned(r))
  {
  }

  lemma DeletedMark(r: Row)
    ensures SameMarks(r, StepDeleted(r))
  {
  }

  lemma SkippedMark(r: Row)
    ensures SameMarks(r, StepSkipped(r))
  {
  }

  lemma DoneMark(r: Row)
    ensures SameMarks(r, StepDone(r))
  {
  }

  lemma RejectedMark(r: Row)
    ensures SameMarks(r, RejectPunishment(r))
  {
  }

  lemma FailedMark(r: Row)
    ensures SameMarks(r, FailPunishment(r))
  {
  }

  lemma ActedMark(r: Row)
    ensures SameMarks(r, StepActed(r))
  {
  }

  lemma StartedMark(r: Row, g: Group, until: Option<int>)
    ensures StartPermission(g, r, until).Some? ==> SameMarks(r, StartPermission(g, r, until).value)
  {
  }

  lemma PreflightSends(id: MemberId, g: Group, now: int, s: MemberState, run: Run, r: Row, env: Env, k: nat)
    requires s.proc == Punishing(run) && run.k < |s.rows| && r == s.rows[run.k]
    ensures SendsBy(now, s, (PreflightStep(id, g, now, s, run, r, env), Quiet), env, k)
  {
    hide InsertWorkflow, StepSkipped, EnterAction, ReadSnapshot, NewerManual;
    WorkflowMark(r, g);
    SkippedMark(r);
    ReadsWriteNothing(id.user, s, run, r, now);
  }

  lemma DeleteSends(g: Group, now: int, s: MemberState, run: Run, r: Row, env: Env, k: nat)
    requires s.proc == Punishing(run) && run.k < |s.rows| && r == s.rows[run.k]
    ensures SendsBy(now, s, DeleteStep(now, s, run, r, env), env, k)
  {
    hide StepDeleted, Approach;
    DeletedMark(r);
    ReadsWriteNothing(0, Put(s, run.k, StepDeleted(r)), run, r, now);
  }

  lemma StartSends(g: Group, now: int, s: MemberState, run: Run, r: Row, env: Env, k: nat)
    requires s.proc == Punishing(run) && run.k < |s.rows| && r == s.rows[run.k]
    ensures SendsBy(now, s, (StartStep(g, now, s, run, r), Quiet), env, k)
  {
    hide StartPermission, FailPunishment, Until;
    StartedMark(r, g, Until(r));
    FailedMark(r);
  }

  lemma CallSends(now: int, s: MemberState, run: Run, r: Row, env: Env, k: nat)
    requires s.proc == Punishing(run) && run.k < |s.rows| && r == s.rows[run.k]
    ensures SendsBy(now, s, DoMainCall(now, s, run, r, env), env, k)
  {
    hide Noted, MainCallOf, UntilDate;
    NotedMarks(r, env.outcome, UntilDate(now, run.seconds));
  }

  lemma NotedMarks(r: Row, o: Outcome, u: Option<int>)
    ensures Noted(r, o, u).sent == (r.sent || o != Rejected)
    ensures Noted(r, o, u).until == r.until
            || (o != Rejected && Noted(r, o, u).until == u && (o == Unknown ==> Extends(r.until, u)))
  {
  }

  lemma KickSends(g: Group, now: int, s: MemberState, run: Run, r: Row, env: Env, k: nat)
    requires s.proc == Punishing(run) && run.k < |s.rows| && r == s.rows[run.k]
    ensures SendsBy(now, s, KickStep(s, run, r, env), env, k)
  {
    if run.pc == KickBan {
      KickBanSends(now, s, run, r, env, k);
    } else {
      KickRestSends(now, s, run, r, env, k);
    }
  }

  lemma KickBanSends(now: int, s: MemberState, run: Run, r: Row, env: Env, k: nat)
    requires s.proc == Punishing(run) && run.k < |s.rows| && r == s.rows[run.k] && run.pc == KickBan
    ensures SendsBy(now, s, KickStep(s, run, r, env), env, k)
  {
    hide Noted, MarkKickBanned;
    NotedMarks(r, env.outcome, None);
  }

  lemma UnmarkedSends(now: int, s: MemberState, r': Row, x: Result, env: Env, k: nat)
    requires s.proc.Punishing? && s.proc.run.k < |s.rows| && SameMarks(s.rows[s.proc.run.k], r')
    requires x.0.rows == s.rows[s.proc.run.k := r']
    ensures SendsBy(now, s, x, env, k)
  {
  }

  lemma KickRestSends(now: int, s: MemberState, run: Run, r: Row, env: Env, k: nat)
    requires s.proc == Punishing(run) && run.k < |s.rows| && r == s.rows[run.k] && run.pc != KickBan
    ensures SendsBy(now, s, KickStep(s, run, r, env), env, k)
  {
    hide Noted, MarkKickBanned, SendsBy;
    assert s.rows[run.k := r] == s.rows;
    var r' := if run.pc == KickMark then MarkKickBanned(r)
              else if run.pc == KickConfirm && env.chatStatus != Kicked then r.(unbanned := true) else r;
    BannedMark(r);
    UnmarkedSends(now, s, r', KickStep(s, run, r, env), env, k);
  }

  lemma TakeoverSends(g: Group, rows: seq<Row>, sessions: seq<Session>, n: nat, k: nat)
    requires n < |rows| && k < |rows|
    ensures var t := CompleteTakeover(g, rows, sessions, n);
      t.Some? ==> |t.value.0| == |rows| && SameMarks(rows[k], t.value.0[k])
  {
    hide StepActed, StepSkipped, AuthorityHolds, CancelAllBut;
    ActedMark(rows[n]);
    SkippedMark(rows[k]);
    SkippedMark(StepActed(rows[n]));
  }

  lemma CommitSends(g: Group, now: int, s: MemberState, run: Run, r: Row, env: Env, k: nat)
    requires s.proc == Punishing(run) && run.k < |s.rows| && r == s.rows[run.k]
    ensures SendsBy(now, s, (DoComplete(g, s, run, r), Quiet), env, k)
  {
    hide CompleteTakeover, StepActed;
    ActedMark(r);
    if k < |s.rows| {
      TakeoverSends(g, s.rows, s.sessions, run.k, k);
    }
    var t := CompleteTakeover(g, s.rows, s.sessions, run.k);
    TakeoverLength(g, s.rows, s.sessions, run.k);
  }

  lemma TailSends(g: Group, now: int, s: MemberState, run: Run, r: Row, env: Env, k: nat)
    requires s.proc == Punishing(run) && run.k < |s.rows| && r == s.rows[run.k]
    ensures SendsBy(now, s, TailStep(s, run, r, env), env, k)
  {
    hide StepDeleted, StepDone, RejectPunishment, NewerManual;
    DeletedMark(r);
    DoneMark(r);
    RejectedMark(r);
  }

  lemma SenderSends(g: Group, now: int, s: MemberState, run: Run, r: Row, env: Env, k: nat)
    requires s.proc == Punishing(run) && run.k < |s.rows| && r == s.rows[run.k]
    ensures SendsBy(now, s, SenderStep(s, run, r, env), env, k)
  {
    hide StepDeleted, StepActed, AfterSenderDelete;
    DeletedMark(r);
    ActedMark(r);
    ReadsWriteNothing(0, Put(s, run.k, StepDeleted(r)), run, r, 0);
  }

  lemma PunishSends(id: MemberId, g: Group, now: int, s: MemberState, env: Env, k: nat)
    requires s.proc.Punishing?
    ensures SendsBy(now, s, Next(id, g, now, s, Go(env)), env, k)
  {
    hide SendsBy, PreflightStep, DeleteStep, StartStep, DoMainCall, KickStep, DoComplete, TailStep, SenderStep;
    var run := s.proc.run;
    if run.k >= |s.rows| {
      StaysUnsent(now, s, env, k);
    } else {
      var r := s.rows[run.k];
      PreflightSends(id, g, now, s, run, r, env, k);
      DeleteSends(g, now, s, run, r, env, k);
      StartSends(g, now, s, run, r, env, k);
      CallSends(now, s, run, r, env, k);
      KickSends(g, now, s, run, r, env, k);
      CommitSends(g, now, s, run, r, env, k);
      TailSends(g, now, s, run, r, env, k);
      SenderSends(g, now, s, run, r, env, k);
    }
  }

  lemma StaysUnsent(now: int, s: MemberState, env: Env, k: nat)
    requires s.proc.Punishing?
    ensures SendsBy(now, s, (Drop(s), Quiet), env, k)
  {
  }

  lemma OthersSendNone(id: MemberId, g: Group, now: int, s: MemberState, l: Label, k: nat)
    requires !(l.Go? && s.proc.Punishing?) && k < |s.rows|
    ensures k < |Next(id, g, now, s, l).0.rows| && SameMarks(s.rows[k], Next(id, g, now, s, l).0.rows[k])
  {
    hide Next;
    OthersKeepRow(id, g, now, s, l, k);
  }

  /** The recorded date of a restriction changes only by a call that was not rejected, to the
      until_date of that call: the time of the call plus the seconds left when the deadline
      was tested, rounded down to a whole second. */
  lemma UntilIsSent(w: World, m: Move, id: MemberId, k: nat)
    requires Reachable(w) && k < |RowsOf(w, id)| && k < |RowsOf(Apply(w, m), id)|
    requires RowsOf(Apply(w, m), id)[k].until != RowsOf(w, id)[k].until
    ensures Calls(w, m, id, k, Accepted) || Calls(w, m, id, k, Unknown)
    ensures MemberOf(w, id).proc.Punishing?
    ensures RowsOf(Apply(w, m), id)[k].until == None
            || RowsOf(Apply(w, m), id)[k].until == UntilDate(w.now, MemberOf(w, id).proc.run.seconds)
    ensures Calls(w, m, id, k, Unknown) && RowsOf(Apply(w, m), id)[k].until.Some? ==>
      Extends(RowsOf(w, id)[k].until, RowsOf(Apply(w, m), id)[k].until)
  {
    hide Next, UntilDate;
    var (s, g) := (MemberOf(w, id), GroupOf(w, id.chat));
    if m.Step? && m.id == id {
      if m.l.Go? && s.proc.Punishing? {
        PunishSends(id, g, w.now, s, m.l.env, k);
      } else {
        OthersSendNone(id, g, w.now, s, m.l, k);
      }
    } else {
      ForeignMarks(w, m, id, k);
    }
  }

  lemma ForeignMarks(w: World, m: Move, id: MemberId, k: nat)
    requires !(m.Step? && m.id == id) && k < |RowsOf(w, id)|
    ensures k < |RowsOf(Apply(w, m), id)| && SameMarks(RowsOf(w, id)[k], RowsOf(Apply(w, m), id)[k])
  {
    hide Next, RevokeRow, ReleaseSessions, Authorized;
    RevokedMarks(RowsOf(w, id)[k], w.now);
  }

  lemma RevokedMarks(r: Row, now: int)
    ensures SameMarks(r, RevokeRow(r, now))
  {
    if r.status != Pending {
      assert RevokeRow(r, now) == r;
    }
  }

  lemma {:induction false} SentMeansCalled(w: World, ms: seq<Move>, id: MemberId, k: nat, n: nat) returns (i: nat, o: Outcome)
    requires Inv(w) && w.members == map[] && n <= |ms|
    requires k < |RowsOf(Before(w, ms, n), id)| && RowsOf(Before(w, ms, n), id)[k].sent
    ensures i < n && o != Rejected && Calls(Before(w, ms, i), ms[i], id, k, o)
  {
    hide Inv, Apply, Calls;
    assert Before(w, ms, 0) == w;
    InvAlong(w, ms, n - 1);
    Along(w, ms, n - 1);
    var u := Before(w, ms, n - 1);
    if k < |RowsOf(u, id)| && RowsOf(u, id)[k].sent {
      i, o := SentMeansCalled(w, ms, id, k, n - 1);
    } else {
      SentArises(u, ms[n - 1], id, k);
      i, o := n - 1, if Calls(u, ms[n - 1], id, k, Accepted) then Accepted else Unknown;
    }
  }

  /** A row is marked as sent exactly when some call of it was not definitely rejected. */
  lemma SentIffCalled(now: int, ms: seq<Move>, id: MemberId, k: nat)
    requires k < |RowsOf(Exec(Empty(now), ms), id)|
    ensures RowsOf(Exec(Empty(now), ms), id)[k].sent <==>
            exists i, o :: 0 <= i < |ms| && o != Rejected && Calls(Before(Empty(now), ms, i), ms[i], id, k, o)
  {
    hide Inv, Apply, Calls, Exec;
    EmptyInv(now);
    assert ms[..|ms|] == ms;
    if RowsOf(Exec(Empty(now), ms), id)[k].sent {
      var i, o := SentMeansCalled(Empty(now), ms, id, k, |ms|);
    }
    if i, o :| 0 <= i < |ms| && o != Rejected && Calls(Before(Empty(now), ms, i), ms[i], id, k, o) {
      EffectIsRemembered(now, ms, id, k, i, o);
    }
  }

  // ---------------------------------------------------------------- acknowledgement

  /** What is recorded as carried out was acknowledged by Telegram, and by the call that the
      action stands for. A kick is the matter of KickActedTrace; a delete that belongs to the
      decision, or of an unknown message, needs no call of its own here. */
  lemma ActedWasAcknowledged(now: int, ms: seq<Move>, id: MemberId, k: nat)
    requires k < |RowsOf(Exec(Empty(now), ms), id)| && RowsOf(Exec(Empty(now), ms), id)[k].acted
    ensures var (a, w) := (RowsOf(Exec(Empty(now), ms), id)[k].decision.action, Empty(now));
      && (a == Mute ==> Acknowledged(w, ms, id, k, Restrict, |ms|))
      && (a == Ban ==> Acknowledged(w, ms, id, k, BanMember, |ms|))
      && (a == Unmute ==> Acknowledged(w, ms, id, k, Restore, |ms|))
      && (a == Unban ==> Acknowledged(w, ms, id, k, UnbanMember, |ms|))
      && (a == Warn ==> Acknowledged(w, ms, id, k, Notice, |ms|))
    ensures var r := RowsOf(Exec(Empty(now), ms), id)[k];
      r.decision.action == Delete && !r.decision.delete && r.message > 0 ==>
        Acknowledged(Empty(now), ms, id, k, DeleteMessage, |ms|)
  {
    hide Inv, Acknowledged, Exec;
    EmptyInv(now);
    assert ms[..|ms|] == ms;
    var c := Carrier(RowsOf(Exec(Empty(now), ms), id)[k]);
    if c.Some? {
      ActedMeansCall(Empty(now), ms, id, k, |ms|, c.value);
    }
  }

  /** A message counts as deleted only after an acknowledged delete of it. */
  lemma DeletedWasAcknowledged(now: int, ms: seq<Move>, id: MemberId, k: nat)
    requires k < |RowsOf(Exec(Empty(now), ms), id)| && RowsOf(Exec(Empty(now), ms), id)[k].deleted
    ensures Acknowledged(Empty(now), ms, id, k, DeleteMessage, |ms|)
  {
    hide Inv, Acknowledged, Exec;
    EmptyInv(now);
    assert ms[..|ms|] == ms;
    MarkMeansCall(Empty(now), ms, id, k, |ms|);
  }

  /** A punishment changes a member's permissions by the calls of its own action and no other. */
  lemma CallsFitTheAction(w: World, m: Move, id: MemberId, k: nat, c: Call, o: Outcome)
    requires Reachable(w) && EffectOn(w, m, id) == Sent(FromPunishment(k), c, o)
    ensures k < |RowsOf(w, id)|
    ensures var a := RowsOf(w, id)[k].decision.action;
      && (c == Restrict ==> a == Mute)
      && (c == Restore ==> a == Unmute)
      && (c == BanMember ==> a == Ban || (a == Kick && !RowsOf(w, id)[k].kickBanned))
      && (c == UnbanMember ==> a == Unban || (a == Kick && RowsOf(w, id)[k].kickBanned))
  {
    hide Next;
    ReachableInv(w);
    ApplyEffect(w, m, id);
  }

  // ---------------------------------------------------------------- kicks

  /** Once `kick_banned` is stored, no retry bans again. */
  lemma KickBansOnce(w: World, id: MemberId, k: nat, ms: seq<Move>, m: Move, o: Outcome)
    requires Reachable(w) && k < |RowsOf(w, id)| && RowsOf(w, id)[k].kickBanned
    ensures EffectOn(Exec(w, ms), m, id) != Sent(FromPunishment(k), BanMember, o)
  {
    hide Next, Apply;
    ReachableInv(w);
    ExecKeeps(w, ms);
    RowsEvolve(w, ms, id, k);
    RowFacts(Exec(w, ms), id, k);
    ApplyEffect(Exec(w, ms), m, id);
  }

  lemma UnbannedArises(w: World, m: Move, id: MemberId, k: nat)
    requires Inv(w) && k < |RowsOf(Apply(w, m), id)| && RowsOf(Apply(w, m), id)[k].unbanned
    requires !(k < |RowsOf(w, id)| && RowsOf(w, id)[k].unbanned)
    ensures ConfirmsIn(w, m, id, k)
  {
    ApplySteps(w, m, id);
    if k < |RowsOf(w, id)| {
      StepEvolves(w, m, id, k);
    } else {
      NewRows(w, m, id, k);
    }
  }

  lemma {:induction false} UnbannedMeansConfirmed(w: World, ms: seq<Move>, id: MemberId, k: nat, n: nat) returns (i: nat)
    requires Inv(w) && w.members == map[] && n <= |ms|
    requires k < |RowsOf(Before(w, ms, n), id)| && RowsOf(Before(w, ms, n), id)[k].unbanned
    ensures i < n && ConfirmsIn(Before(w, ms, i), ms[i], id, k)
  {
    hide Inv, Apply, ConfirmsIn;
    assert Before(w, ms, 0) == w;
    InvAlong(w, ms, n - 1);
    Along(w, ms, n - 1);
    var u := Before(w, ms, n - 1);
    if k < |RowsOf(u, id)| && RowsOf(u, id)[k].unbanned {
      i := UnbannedMeansConfirmed(w, ms, id, k, n - 1);
    } else {
      UnbannedArises(u, ms[n - 1], id, k);
      i := n - 1;
    }
  }

  /** A kick is recorded as carried out only after an acknowledged ban, then an acknowledged
      unban of the member, then a membership read that did not say `kicked`. */
  lemma KickActedTrace(now: int, ms: seq<Move>, id: MemberId, k: nat) returns (ban: nat, unban: nat, read: nat)
    requires k < |RowsOf(Exec(Empty(now), ms), id)|
    requires RowsOf(Exec(Empty(now), ms), id)[k].acted && RowsOf(Exec(Empty(now), ms), id)[k].decision.action == Kick
    ensures ban < unban < read < |ms|
    ensures EffectOn(Before(Empty(now), ms, ban), ms[ban], id) == Sent(FromPunishment(k), BanMember, Accepted)
    ensures EffectOn(Before(Empty(now), ms, unban), ms[unban], id) == Sent(FromPunishment(k), UnbanMember, Accepted)
    ensures ConfirmsIn(Before(Empty(now), ms, read), ms[read], id, k)
  {
    hide Apply, ConfirmsIn, Inv, EffectOn, Relies;
    var w := Empty(now);
    EmptyInv(now);
    ExecKeeps(w, ms);
    RowFacts(Exec(w, ms), id, k);
    assert ms[..|ms|] == ms;
    read := UnbannedMeansConfirmed(w, ms, id, k, |ms|);
    ConfirmRelies(w, ms, id, k, read);
    ReceiptIsReal(w, ms, id, k, UnbanMember, read);
    unban :| 0 <= unban < read && EffectOn(Before(w, ms, unban), ms[unban], id) == Sent(FromPunishment(k), UnbanMember, Accepted);
    InvAlong(w, ms, unban);
    UnbanFollowsBan(Before(w, ms, unban), ms[unban], id, k);
    RowsEvolve(Before(w, ms, unban), ms[unban..], id, k);
    assert ms == ms[..unban] + ms[unban..];
    ExecConcat(w, ms[..unban], ms[unban..]);
    MarkMeansCall(w, ms, id, k, unban);
    ban :| 0 <= ban < unban && EffectOn(Before(w, ms, ban), ms[ban], id) == Sent(FromPunishment(k), BanMember, Accepted);
  }

  lemma ConfirmRelies(w: World, ms: seq<Move>, id: MemberId, k: nat, n: nat)
    requires n < |ms| && Inv(w) && ConfirmsIn(Before(w, ms, n), ms[n], id, k)
    ensures Relies(MemberOf(Before(w, ms, n), id), k, UnbanMember)
  {
    hide Apply, Inv, MemberInv;
    InvAlong(w, ms, n);
    InvOfMember(Before(w, ms, n), id);
    RunFacts(id.user, GroupOf(Before(w, ms, n), id.chat).epoch, Before(w, ms, n).now, MemberOf(Before(w, ms, n), id));
  }

  lemma UnbanFollowsBan(w: World, m: Move, id: MemberId, k: nat)
    requires Inv(w) && EffectOn(w, m, id) == Sent(FromPunishment(k), UnbanMember, Accepted)
    ensures k < |RowsOf(w, id)|
    ensures RowsOf(w, id)[k].decision.action == Kick ==> RowsOf(w, id)[k].kickBanned
  {
    hide Next;
    ApplyEffect(w, m, id);
  }
}
