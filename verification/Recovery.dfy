/** What a punishment attempt does when nothing disturbs it: from any stored row, also one that
    an earlier attempt left half done, it makes exactly the calls that are still due and ends. */
module Recovery {
  import opened Domain
  import opened Tables
  import opened Machine
  import opened Receipts
  import opened Locked
  import opened Punish

  // ---------------------------------------------------------------- a program alone

  /** A member's chat and the clock, and the answers that Telegram and the other tables give. */
  datatype Setting = Setting(id: MemberId, g: Group, now: int, env: Env)

  function Stepped(c: Setting, s: MemberState): Result {
    Continue(c.id, c.g, c.now, s, c.env)
  }

  /** The state after n steps, and the calls made. */
  function Alone(c: Setting, s: MemberState, n: nat): (MemberState, seq<Effect>)
    decreases n
  {
    if n == 0 then (s, [])
    else
      var (s1, e) := Stepped(c, s);
      var (s2, es) := Alone(c, s1, n - 1);
      (s2, (if e == Quiet then [] else [e]) + es)
  }

  ghost predicate Leads(c: Setting, s: MemberState, s': MemberState, es: seq<Effect>) {
    exists n: nat :: Alone(c, s, n) == (s', es)
  }

  lemma StaysPut(c: Setting, s: MemberState)
    ensures Leads(c, s, s, [])
  {
    assert Alone(c, s, 0) == (s, []);
  }

  lemma OneStep(c: Setting, s: MemberState)
    ensures Leads(c, s, Stepped(c, s).0, if Stepped(c, s).1 == Quiet then [] else [Stepped(c, s).1])
  {
    hide Stepped;
    var (s1, e) := Stepped(c, s);
    assert Alone(c, s1, 0) == (s1, []);
    var es := if e == Quiet then [] else [e];
    assert es + [] == es;
    assert Alone(c, s, 1) == (s1, es + []);
  }

  lemma {:induction false} AloneAdds(c: Setting, s: MemberState, m: nat, n: nat)
    ensures var (s1, es) := Alone(c, s, m);
      var (s2, fs) := Alone(c, s1, n);
      Alone(c, s, m + n) == (s2, es + fs)
    decreases m
  {
    hide Stepped;
    if m == 0 {
      assert [] + Alone(c, s, n).1 == Alone(c, s, n).1;
    } else {
      var es := Alone(c, Stepped(c, s).0, m - 1).1;
      var fs := Alone(c, Alone(c, Stepped(c, s).0, m - 1).0, n).1;
      var e := Stepped(c, s).1;
      assert (if e == Quiet then [] else [e]) + (es + fs) == ((if e == Quiet then [] else [e]) + es) + fs;
      AloneAdds(c, Stepped(c, s).0, m - 1, n);
    }
  }

  lemma Then(c: Setting, s: MemberState, s1: MemberState, s2: MemberState, es: seq<Effect>, fs: seq<Effect>)
    requires Leads(c, s, s1, es) && Leads(c, s1, s2, fs)
    ensures Leads(c, s, s2, es + fs) && (es == [] ==> Leads(c, s, s2, fs)) && (fs == [] ==> Leads(c, s, s2, es))
  {
    hide Alone;
    assert (es == [] ==> es + fs == fs) && (fs == [] ==> es + fs == es);
    var m: nat :| Alone(c, s, m) == (s1, es);
    var n: nat :| Alone(c, s1, n) == (s2, fs);
    AloneAdds(c, s, m, n);
    assert Alone(c, s, m + n) == (s2, es + fs);
  }

  /** Two steps. */
  lemma TwoSteps(c: Setting, s: MemberState, s1: MemberState, s2: MemberState, e: Effect)
    requires Stepped(c, s) == (s1, e) && Stepped(c, s1) == (s2, Quiet)
    ensures Leads(c, s, s2, if e == Quiet then [] else [e])
  {
    hide Stepped, Leads;
    OneStep(c, s);
    OneStep(c, s1);
    Then(c, s, s1, s2, if e == Quiet then [] else [e], []);
  }

  // ---------------------------------------------------------------- the stages of an attempt

  /** The program of row k, which now reads r; everything else is as in s. */
  function On(s: MemberState, k: nat, r: Row, run: Run): MemberState
    requires k < |s.rows|
  {
    s.(rows := s.rows[k := r], proc := Punishing(run))
  }

  lemma OnRow(s: MemberState, k: nat, r: Row, run: Run)
    requires k < |s.rows|
    ensures |On(s, k, r, run).rows| == |s.rows| && On(s, k, r, run).rows[k] == r && On(s, k, r, run).proc == Punishing(run)
    ensures forall r', run' :: On(On(s, k, r, run), k, r', run') == On(s, k, r', run')
  {
    forall r', run' ensures On(On(s, k, r, run), k, r', run') == On(s, k, r', run') {
      assert s.rows[k := r][k := r'] == s.rows[k := r'];
    }
  }

  /** The machine's step, by the part of punishLocked it belongs to. */
  lemma StepOn(c: Setting, s: MemberState)
    requires s.proc.Punishing? && s.proc.run.k < |s.rows|
    ensures var (run, r) := (s.proc.run, s.rows[s.proc.run.k]);
      Stepped(c, s) == match run.pc
        case AddWorkflow | ReadRow | Preflight | CheckNewer | MarkSkipped =>
          (PreflightStep(c.id, c.g, c.now, s, run, r, c.env), Quiet)
        case PreDelete | MarkPreDeleted => DeleteStep(c.now, s, run, r, c.env)
        case StartCall | CheckDeadline | MarkFailed => (StartStep(c.g, c.now, s, run, r), Quiet)
        case MainCall => DoMainCall(c.now, s, run, r, c.env)
        case KickRead | KickBan | KickMark | KickUnban | KickConfirm => KickStep(s, run, r, c.env)
        case Complete => (DoComplete(c.g, s, run, r), Quiet)
        case BanDelete | MarkBanDeleted | Notify | MarkDone | Reject => TailStep(s, run, r, c.env)
        case SenderDelete | SenderMark | SenderNotice | SenderAct => SenderStep(s, run, r, c.env)
  {
    hide PreflightStep, DeleteStep, StartStep, DoMainCall, KickStep, DoComplete, TailStep, SenderStep;
  }

  /** The local variables right after the snapshot. */
  function SeenRun(k: nat, r: Row): Run {
    Seen(k, r, None)
  }

  /** The row is pending, with a workflow of the chat's epoch, and the chat is approved. */
  predicate Ready(g: Group, r: Row) {
    Authorized(g) && r.status == Pending && r.workflow && r.version == g.epoch
  }

  lemma ReadsRow(c: Setting, s: MemberState, k: nat, r: Row)
    requires k < |s.rows| && c.id.user >= 0 && r.status == Pending
    ensures Leads(c, On(s, k, r, FirstRun(k, None).(pc := ReadRow)), On(s, k, r, SeenRun(k, r).(pc := PunishPc.Preflight)), [])
  {
    hide Leads, DeleteStep, StartStep, DoMainCall, KickStep, DoComplete, TailStep, SenderStep, Stepped;
    var a := On(s, k, r, FirstRun(k, None).(pc := ReadRow));
    StepOn(c, a);
    OneStep(c, a);
  }

  /** The member is spared: protected, or newer manual work of an administrator stands. */
  predicate Spared(c: Setting, rows: seq<Row>, r: Row) {
    (c.env.protected && r.decision.action != Unmute && r.decision.action != Unban)
    || ((r.source == Automatic || r.source == Manual || r.source == Review) && NewerManual(rows, r.createdAt))
  }

  lemma EntersAction(c: Setting, s: MemberState, k: nat, r: Row, run: Run)
    requires k < |s.rows| && run.k == k && !Spared(c, s.rows[k := r], r)
    ensures Leads(c, On(s, k, r, run.(pc := PunishPc.Preflight)), s.(rows := s.rows[k := r], proc := EnterTo(run, r, c.now)), [])
  {
    hide Leads, DeleteStep, StartStep, DoMainCall, KickStep, DoComplete, TailStep, SenderStep, Stepped, NewerManual, EnterAction;
    var a := On(s, k, r, run.(pc := PunishPc.Preflight));
    var b := On(s, k, r, run.(pc := CheckNewer));
    var to := s.(rows := s.rows[k := r], proc := EnterTo(run, r, c.now));
    StepOn(c, a);
    StepOn(c, b);
    EntersAs(s.(rows := s.rows[k := r]), a.proc, run, r, c.now);
    if r.source == Automatic || r.source == Manual || r.source == Review {
      TwoSteps(c, a, b, to, Quiet);
    } else {
      OneStep(c, a);
    }
  }

  lemma EntersAs(s: MemberState, p: Proc, run: Run, r: Row, now: int)
    ensures forall pc, q :: EnterAction(s.(proc := q), run.(pc := pc), r, now) == s.(proc := EnterTo(run, r, now))
  {
  }

  /** And a member who is spared is left alone. */
  lemma IsSpared(c: Setting, s: MemberState, k: nat, r: Row, run: Run)
    requires k < |s.rows| && run.k == k && run.caller == None && r.status == Pending && Spared(c, s.rows[k := r], r)
    ensures Leads(c, On(s, k, r, run.(pc := PunishPc.Preflight)), s.(rows := s.rows[k := r.(status := Skipped)], proc := Idle), [])
  {
    hide Leads, DeleteStep, StartStep, DoMainCall, KickStep, DoComplete, TailStep, SenderStep, Stepped, NewerManual, EnterAction;
    var a := On(s, k, r, run.(pc := PunishPc.Preflight));
    var b := On(s, k, r, run.(pc := CheckNewer));
    var d := On(s, k, r, run.(pc := MarkSkipped));
    var to := s.(rows := s.rows[k := r.(status := Skipped)], proc := Idle);
    StepOn(c, a);
    StepOn(c, b);
    StepOn(c, d);
    assert StepSkipped(r) == r.(status := Skipped);
    assert s.rows[k := r][k := r.(status := Skipped)] == s.rows[k := r.(status := Skipped)];
    OneStep(c, d);
    if c.env.protected && r.decision.action != Unmute && r.decision.action != Unban {
      OneStep(c, a);
      Then(c, a, d, to, [], []);
    } else {
      TwoSteps(c, a, b, d, Quiet);
      Then(c, a, d, to, [], []);
    }
  }

  // ---------------------------------------------------------------- the action

  lemma Deletes(c: Setting, s: MemberState, k: nat, r: Row, run: Run)
    requires k < |s.rows| && run.k == k && c.env.outcome == Accepted && r.status == Pending
    ensures Leads(c, On(s, k, r, run.(pc := PreDelete)),
                  s.(rows := s.rows[k := r.(deleted := true)], proc := ApproachTo(run.(mayHaveActed := true), r, c.now)),
                  One(k, DeleteMessage))
  {
    hide Leads, PreflightStep, StartStep, DoMainCall, KickStep, DoComplete, TailStep, SenderStep, Stepped, Approach;
    var a := On(s, k, r, run.(pc := PreDelete));
    var b := On(s, k, r, run.(pc := MarkPreDeleted, mayHaveActed := true));
    var to := s.(rows := s.rows[k := r.(deleted := true)], proc := ApproachTo(run.(mayHaveActed := true), r, c.now));
    StepOn(c, a);
    StepOn(c, b);
    assert StepDeleted(r) == r.(deleted := true);
    assert s.rows[k := r][k := r.(deleted := true)] == s.rows[k := r.(deleted := true)];
    ApproachesAs(s.(rows := s.rows[k := r.(deleted := true)]), run.(mayHaveActed := true), r, c.now);
    TwoSteps(c, a, b, to, Sent(FromPunishment(k), DeleteMessage, Accepted));
  }

  lemma ApproachesAs(s: MemberState, run: Run, r: Row, now: int)
    ensures forall pc, q :: Approach(s.(proc := q), run.(pc := pc), r, now) == s.(proc := ApproachTo(run, r, now))
  {
  }

  /** The row once the action is written ahead. */
  function StartedRow(r: Row): Row {
    if TimedMute(r.decision) then r.(started := true, releaseNeeded := true, releaseAt := Some(Deadline(r)))
    else r.(started := true)
  }

  function LeftSeconds(r: Row, now: int, run: Run): nat
    requires TimedMute(r.decision) ==> Deadline(r) - now >= SECOND
  {
    if TimedMute(r.decision) then (Deadline(r) - now) / SECOND else run.seconds
  }

  lemma Starts(c: Setting, s: MemberState, k: nat, r: Row, run: Run)
    requires k < |s.rows| && run.k == k && AuthorityHolds(c.g, r) && Permission(r.decision.action)
    requires TimedMute(r.decision) ==> Deadline(r) - c.now >= SECOND
    ensures Leads(c, On(s, k, r, run.(pc := StartCall)),
                  On(s, k, StartedRow(r),
                     run.(pc := if r.decision.action == Kick then KickRead else MainCall, seconds := LeftSeconds(r, c.now, run))),
                  [])
  {
    hide Leads, PreflightStep, DeleteStep, DoMainCall, KickStep, DoComplete, TailStep, SenderStep, Stepped;
    var a := On(s, k, r, run.(pc := StartCall));
    StepOn(c, a);
    OneStep(c, a);
    assert s.rows[k := r][k := StartedRow(r)] == s.rows[k := StartedRow(r)];
    if TimedMute(r.decision) {
      var b := On(s, k, StartedRow(r), run.(pc := CheckDeadline));
      StepOn(c, b);
      assert s.rows[k := StartedRow(r)][k := StartedRow(r)] == s.rows[k := StartedRow(r)];
      OneStep(c, b);
      Then(c, a, b, On(s, k, StartedRow(r), run.(pc := MainCall, seconds := LeftSeconds(r, c.now, run))), [], []);
    }
  }

  /** Only the history of the permission calls differs. */
  predicate Same(r: Row, r': Row) {
    r' == r.(sent := r'.sent, settled := r'.settled, until := r'.until, kickBanned := r'.kickBanned, unbanned := r'.unbanned)
  }

  lemma CallsOnce(c: Setting, s: MemberState, k: nat, r: Row, run: Run) returns (r': Row)
    requires k < |s.rows| && run.k == k && c.env.outcome == Accepted && r.decision.action != Kick
    ensures Same(r, r')
    ensures Leads(c, On(s, k, r, run.(pc := MainCall)), On(s, k, r', run.(pc := Complete, mayHaveActed := true)), MainCalls(k, r))
  {
    hide Leads, PreflightStep, DeleteStep, StartStep, KickStep, DoComplete, TailStep, SenderStep, Stepped, MainCallOf, Carrier,
         UntilDate, Noted;
    SameNoted(r, UntilDate(c.now, run.seconds));
    var a := On(s, k, r, run.(pc := MainCall));
    StepOn(c, a);
    CarrierIsCalled(r);
    OneStep(c, a);
    r' := if Carrier(r).Some? && PermissionCall(Carrier(r).value) then Noted(r, Accepted, UntilDate(c.now, run.seconds)) else r;
    assert s.rows[k := r][k := r'] == s.rows[k := r'];
    assert On(s, k, r', run.(pc := Complete, mayHaveActed := true)) == Stepped(c, a).0;
  }

  lemma KicksOut(c: Setting, s: MemberState, k: nat, r: Row, run: Run) returns (r': Row)
    requires k < |s.rows| && run.k == k && c.env.outcome == Accepted && c.env.chatStatus != Kicked
    ensures Same(r, r')
    ensures Leads(c, On(s, k, r, run.(pc := KickRead)), On(s, k, r', run.(pc := Complete, mayHaveActed := true)),
                  BanCalls(k, r.kickBanned) + One(k, UnbanMember))
  {
    hide Leads, PreflightStep, DeleteStep, StartStep, DoMainCall, DoComplete, TailStep, SenderStep, Stepped;
    var b := BansFirst(c, s, k, r, run);
    var run' := run.(mayHaveActed := true);
    var a := On(s, k, b, run'.(pc := KickUnban));
    var d := On(s, k, b, run'.(pc := KickConfirm));
    r' := b.(unbanned := true);
    var to := On(s, k, r', run'.(pc := Complete));
    StepOn(c, a);
    StepOn(c, d);
    assert s.rows[k := b][k := r'] == s.rows[k := r'];
    TwoSteps(c, a, d, to, Sent(FromPunishment(k), UnbanMember, Accepted));
    Then(c, On(s, k, r, run.(pc := KickRead)), a, to, BanCalls(k, r.kickBanned), One(k, UnbanMember));
  }

  lemma BansFirst(c: Setting, s: MemberState, k: nat, r: Row, run: Run) returns (r': Row)
    requires k < |s.rows| && run.k == k && c.env.outcome == Accepted
    ensures Same(r, r')
    ensures Leads(c, On(s, k, r, run.(pc := KickRead)), On(s, k, r', run.(pc := KickUnban, mayHaveActed := true)),
                  BanCalls(k, r.kickBanned))
  {
    hide Leads, PreflightStep, DeleteStep, StartStep, DoMainCall, DoComplete, TailStep, SenderStep, Stepped, Same;
    var a := On(s, k, r, run.(pc := KickRead));
    StepOn(c, a);
    OneStep(c, a);
    if r.kickBanned {
      SameItself(r);
      r' := r;
    } else {
      r' := BansNow(c, s, k, r, run);
      Then(c, a, On(s, k, r, run.(pc := KickBan)), On(s, k, r', run.(pc := KickUnban, mayHaveActed := true)), [], One(k, BanMember));
    }
  }

  lemma BansNow(c: Setting, s: MemberState, k: nat, r: Row, run: Run) returns (r': Row)
    requires k < |s.rows| && run.k == k && c.env.outcome == Accepted
    ensures Same(r, r')
    ensures Leads(c, On(s, k, r, run.(pc := KickBan)), On(s, k, r', run.(pc := KickUnban, mayHaveActed := true)), One(k, BanMember))
  {
    hide Leads, PreflightStep, DeleteStep, StartStep, DoMainCall, DoComplete, TailStep, SenderStep, Stepped, Noted;
    var b := On(s, k, r, run.(pc := KickBan));
    var noted := Noted(r, Accepted, None);
    var d := On(s, k, noted, run.(pc := KickMark, mayHaveActed := true));
    r' := noted.(kickBanned := true);
    SameNoted(r, None);
    var to := On(s, k, r', run.(pc := KickUnban, mayHaveActed := true));
    StepOn(c, b);
    StepOn(c, d);
    assert s.rows[k := r][k := noted] == s.rows[k := noted];
    assert s.rows[k := noted][k := r'] == s.rows[k := r'];
    TwoSteps(c, b, d, to, Sent(FromPunishment(k), BanMember, Accepted));
  }

  lemma SameItself(r: Row)
    ensures Same(r, r)
  {
  }

  lemma SameNoted(r: Row, until: Option<int>)
    ensures Noted(r, Accepted, until) == r.(sent := true, settled := false, until := until)
  {
  }

  // ---------------------------------------------------------------- the commit and what follows

  /** The commit marks row k and may skip other pending rows; nothing becomes done by it. */
  ghost predicate Committed(s: MemberState, s': MemberState, k: nat, r: Row) {
    |s'.rows| == |s.rows| && k < |s.rows| && s'.rows[k] == r.(acted := true)
    && forall at :: NewerManual(s'.rows, at) == NewerManual(s.rows, at)
  }

  lemma Commits(c: Setting, s: MemberState, k: nat, r: Row, run: Run) returns (s': MemberState)
    requires k < |s.rows| && run.k == k && r.status == Pending
    requires Permission(r.decision.action) ==> AuthorityHolds(c.g, r)
    ensures Committed(On(s, k, r, run), s', k, r) && s'.proc == Punishing(run.(pc := AfterAction(run, r)))
    ensures Leads(c, On(s, k, r, run.(pc := Complete)), s', [])
  {
    hide Leads, PreflightStep, DeleteStep, StartStep, DoMainCall, KickStep, TailStep, SenderStep, Stepped, NewerManual,
         CancelAllBut, AuthorityHolds;
    var a := On(s, k, r, run.(pc := Complete));
    StepOn(c, a);
    OneStep(c, a);
    s' := Stepped(c, a).0;
    assert StepActed(r) == r.(acted := true);
    assert a.rows[k] == r;
    NoMoreManual(a.rows, k, r);
  }

  lemma NoMoreManual(rows: seq<Row>, k: nat, r: Row)
    requires k < |rows| && rows[k] == r && r.status == Pending
    ensures forall at :: NewerManual(rows[k := r.(acted := true)], at) == NewerManual(rows, at)
    ensures forall at :: NewerManual(SkipOlder(rows[k := r.(acted := true)], k), at) == NewerManual(rows, at)
    ensures SkipOlder(rows[k := r.(acted := true)], k)[k] == r.(acted := true)
  {
    var marked := rows[k := r.(acted := true)];
    SameManual(rows, marked);
    SameManual(rows, SkipOlder(marked, k));
  }

  lemma SameManual(rows: seq<Row>, rows': seq<Row>)
    requires |rows'| == |rows| && forall i :: 0 <= i < |rows| ==> Fixed(rows[i], rows'[i])
    requires forall i :: 0 <= i < |rows| ==> (rows[i].status == PunishmentStatus.Done <==> rows'[i].status == PunishmentStatus.Done)
    ensures forall at :: NewerManual(rows', at) == NewerManual(rows, at)
  {
    forall at ensures NewerManual(rows', at) == NewerManual(rows, at) {
      if i :| 0 <= i < |rows| && rows[i].source == Manual && rows[i].status == PunishmentStatus.Done
              && rows[i].createdAt > at && Permission(rows[i].decision.action) {
        assert Fixed(rows[i], rows'[i]);
      }
      if i :| 0 <= i < |rows'| && rows'[i].source == Manual && rows'[i].status == PunishmentStatus.Done
              && rows'[i].createdAt > at && Permission(rows'[i].decision.action) {
        assert Fixed(rows[i], rows'[i]);
      }
    }
  }

  lemma DeletesLast(c: Setting, s: MemberState, k: nat, r: Row, run: Run)
    requires k < |s.rows| && run.k == k && c.env.outcome == Accepted && r.status == Pending
    ensures Leads(c, On(s, k, r, run.(pc := BanDelete)), On(s, k, r.(deleted := true), run.(pc := Notify)), One(k, DeleteMessage))
  {
    hide Leads, PreflightStep, DeleteStep, StartStep, DoMainCall, KickStep, DoComplete, SenderStep, Stepped, NewerManual;
    var a := On(s, k, r, run.(pc := BanDelete));
    var b := On(s, k, r, run.(pc := MarkBanDeleted));
    var to := On(s, k, r.(deleted := true), run.(pc := Notify));
    StepOn(c, a);
    StepOn(c, b);
    assert StepDeleted(r) == r.(deleted := true);
    assert s.rows[k := r][k := r] == s.rows[k := r];
    assert s.rows[k := r][k := r.(deleted := true)] == s.rows[k := r.(deleted := true)];
    TwoSteps(c, a, b, to, Sent(FromPunishment(k), DeleteMessage, Accepted));
  }

  /** The group is told of a repeated advertisement, and of a review unless an administrator was faster. */
  predicate Tells(rows: seq<Row>, r: Row) {
    r.decision.reason == RepeatedAd || (r.decision.reason == LocalAdReview && !NewerManual(rows, r.createdAt))
  }

  lemma Ends(c: Setting, s: MemberState, k: nat, r: Row, run: Run)
    requires k < |s.rows| && run.k == k && run.caller == None && c.env.outcome == Accepted && r.status == Pending
    ensures Leads(c, On(s, k, r, run.(pc := Notify)), s.(rows := s.rows[k := r.(status := PunishmentStatus.Done)], proc := Idle),
                  NoticeCalls(k, Tells(s.rows[k := r], r)))
  {
    hide Leads, PreflightStep, DeleteStep, StartStep, DoMainCall, KickStep, DoComplete, SenderStep, Stepped, NewerManual;
    var a := On(s, k, r, run.(pc := Notify));
    var b := On(s, k, r, run.(pc := MarkDone));
    var to := s.(rows := s.rows[k := r.(status := PunishmentStatus.Done)], proc := Idle);
    StepOn(c, a);
    StepOn(c, b);
    assert StepDone(r) == r.(status := PunishmentStatus.Done);
    assert s.rows[k := r][k := r.(status := PunishmentStatus.Done)] == s.rows[k := r.(status := PunishmentStatus.Done)];
    TwoSteps(c, a, b, to, if Tells(s.rows[k := r], r) then Sent(FromPunishment(k), Notice, Accepted) else Quiet);
  }

  /** The time of a mute that was never begun is over: it fails without a call. */
  lemma GivesUp(c: Setting, s: MemberState, k: nat, r: Row, run: Run)
    requires k < |s.rows| && run.k == k && r.status == Pending
    ensures Leads(c, On(s, k, r, run.(pc := MarkFailed)), s.(rows := s.rows[k := r.(status := Failed)], proc := Idle), [])
  {
    hide Leads, PreflightStep, DeleteStep, DoMainCall, KickStep, DoComplete, TailStep, SenderStep, Stepped;
    var a := On(s, k, r, run.(pc := MarkFailed));
    StepOn(c, a);
    OneStep(c, a);
    assert FailPunishment(r) == r.(status := Failed);
    assert s.rows[k := r][k := r.(status := Failed)] == s.rows[k := r.(status := Failed)];
  }

  // ---------------------------------------------------------------- the whole attempt

  /** The switch over the action can do its work now. */
  predicate CanAct(c: Setting, p: Row) {
    var a := p.decision.action;
    && (a == Delete || a == Warn || Permission(a))
    && (TimedMute(p.decision) ==> Deadline(p) - c.now >= SECOND)
  }

  /** The action stage; r is the row, p its snapshot. */
  lemma Acts(c: Setting, s: MemberState, k: nat, p: Row, r: Row, run: Run) returns (s': MemberState, r': Row)
    requires k < |s.rows| && run.k == k && c.env.outcome == Accepted && c.env.chatStatus != Kicked
    requires run.acted0 == p.acted && run.started0 == p.started && run.deleted0 == p.deleted
    requires r == p.(deleted := r.deleted) && Ready(c.g, p) && (p.acted || CanAct(c, p))
    ensures Same(p.(acted := true, deleted := r.deleted, started := r'.started, releaseNeeded := r'.releaseNeeded, releaseAt := r'.releaseAt), r')
    ensures |s'.rows| == |s.rows| && s'.rows[k] == r'
    ensures s'.proc.Punishing? && s'.proc.run.k == k && s'.proc == Punishing(s'.proc.run.(pc := AfterAction(s'.proc.run, p)))
    ensures s'.proc.run.caller == run.caller && s'.proc.run.deleted0 == run.deleted0
    ensures forall at :: NewerManual(s'.rows, at) == NewerManual(s.rows[k := r], at)
    ensures Leads(c, s.(rows := s.rows[k := r], proc := ApproachTo(run, r, c.now)), s', ActionCalls(k, p, p.kickBanned))
  {
    hide Leads, NewerManual, Alone, Stepped, Carrier, StartedRow, Permission;
    StartedFields(r);
    if p.acted {
      r', s' := r, On(s, k, r, run.(pc := AfterAction(run, p)));
      assert s'.proc == Punishing(run.(pc := AfterAction(run, p)));
      StaysPut(c, s');
      return;
    }
    var first, run1, started, before := Begins(c, s, k, r, run);
    var done := CarriesOut(c, s, k, started, run1);
    SameActionCalls(k, p, started);
    var run2 := run1.(mayHaveActed := true);
    var mid := On(s, k, done, run2.(pc := Complete));
    Then(c, before, first, mid, [], ActionCalls(k, p, p.kickBanned));
    s' := Commits(c, s, k, done, run2);
    r' := done.(acted := true);
    Then(c, before, mid, s', ActionCalls(k, p, p.kickBanned), []);
    OnlyManual(s.rows, k, r, done, s.rows[k := r], On(s, k, done, run2).rows);
  }

  lemma CarriesOut(c: Setting, s: MemberState, k: nat, r: Row, run: Run) returns (r': Row)
    requires k < |s.rows| && run.k == k && c.env.outcome == Accepted && c.env.chatStatus != Kicked
    ensures Same(r, r')
    ensures Leads(c, On(s, k, r, run.(pc := if r.decision.action == Kick then KickRead else MainCall)),
                  On(s, k, r', run.(pc := Complete, mayHaveActed := true)),
                  if r.decision.action == Kick then BanCalls(k, r.kickBanned) + One(k, UnbanMember) else MainCalls(k, r))
  {
    hide Leads, Alone, Stepped, Carrier, Same;
    if r.decision.action == Kick {
      r' := KicksOut(c, s, k, r, run);
    } else {
      r' := CallsOnce(c, s, k, r, run);
    }
  }

  lemma SameActionCalls(k: nat, p: Row, r: Row)
    requires r.decision == p.decision && r.message == p.message && r.kickBanned == p.kickBanned && !p.acted
    ensures ActionCalls(k, p, p.kickBanned)
         == if r.decision.action == Kick then BanCalls(k, r.kickBanned) + One(k, UnbanMember) else MainCalls(k, r)
  {
  }

  lemma OnlyManual(rows: seq<Row>, k: nat, r: Row, r': Row, a: seq<Row>, b: seq<Row>)
    requires k < |rows| && Fixed(r, r') && r.status == r'.status && a == rows[k := r] && b == rows[k := r']
    ensures forall at :: NewerManual(b, at) == NewerManual(a, at)
  {
    SameManual(a, b);
  }

  lemma ApproachGoes(c: Setting, r: Row, run: Run)
    requires !run.acted0 && CanAct(c, r)
    ensures ApproachTo(run, r, c.now) == Punishing(run.(pc := if Permission(r.decision.action) then StartCall else MainCall))
    ensures TimedMute(r.decision) ==> Deadline(r) - c.now >= SECOND
    ensures !Permission(r.decision.action) ==> r.decision.action != Kick
  {
  }

  /** Up to the call. */
  lemma Begins(c: Setting, s: MemberState, k: nat, r: Row, run: Run)
    returns (first: MemberState, run': Run, started: Row, before: MemberState)
    requires k < |s.rows| && run.k == k && !run.acted0 && Ready(c.g, r) && CanAct(c, r)
    ensures before == s.(rows := s.rows[k := r], proc := ApproachTo(run, r, c.now))
    ensures run' == run.(seconds := run'.seconds)
    ensures first == On(s, k, started, run'.(pc := if r.decision.action == Kick then KickRead else MainCall))
    ensures started == if Permission(r.decision.action) then StartedRow(r) else r
    ensures Leads(c, before, first, [])
  {
    hide Leads, Alone, Stepped, ApproachTo, CanAct, TimedMute, Permission, Deadline, StartedRow, LeftSeconds, Ready;
    ApproachGoes(c, r, run);
    AuthorityIs(c.g, r);
    if Permission(r.decision.action) {
      first, run', started, before := BeginsPermission(c, s, k, r, run);
    } else {
      run', started := run, r;
      before := On(s, k, r, run.(pc := MainCall));
      first := before;
      StaysPut(c, before);
    }
  }

  lemma BeginsPermission(c: Setting, s: MemberState, k: nat, r: Row, run: Run)
    returns (first: MemberState, run': Run, started: Row, before: MemberState)
    requires k < |s.rows| && run.k == k && AuthorityHolds(c.g, r) && Permission(r.decision.action)
    requires TimedMute(r.decision) ==> Deadline(r) - c.now >= SECOND
    ensures before == s.(rows := s.rows[k := r], proc := Punishing(run.(pc := StartCall)))
    ensures run' == run.(seconds := run'.seconds)
    ensures first == On(s, k, started, run'.(pc := if r.decision.action == Kick then KickRead else MainCall))
    ensures started == StartedRow(r)
    ensures Leads(c, before, first, [])
  {
    hide Leads, Alone, Stepped, TimedMute, Permission, Deadline, StartedRow, LeftSeconds, AuthorityHolds;
    run' := run.(seconds := LeftSeconds(r, c.now, run));
    started := StartedRow(r);
    before := On(s, k, r, run.(pc := StartCall));
    Starts(c, s, k, r, run);
    first := On(s, k, started, run'.(pc := if r.decision.action == Kick then KickRead else MainCall));
  }

  lemma StartedFields(r: Row)
    ensures var a := if Permission(r.decision.action) then StartedRow(r) else r;
      a == r.(started := a.started, releaseNeeded := a.releaseNeeded, releaseAt := a.releaseAt)
  {
    hide Permission, TimedMute, Deadline, StartedRow;
    if !Permission(r.decision.action) {
      Rewritten(r, r.started, r.releaseNeeded, r.releaseAt);
      Unwritten(r);
    } else if TimedMute(r.decision) {
      Rewritten(r, true, true, Some(Deadline(r)));
      StartedIs(r);
    } else {
      Rewritten(r, true, r.releaseNeeded, r.releaseAt);
      StartedIs(r);
    }
  }

  lemma Unwritten(r: Row)
    ensures r == r.(started := r.started, releaseNeeded := r.releaseNeeded, releaseAt := r.releaseAt)
  {
  }

  lemma StartedIs(r: Row)
    ensures StartedRow(r) == if TimedMute(r.decision) then r.(started := true, releaseNeeded := true, releaseAt := Some(Deadline(r)))
                             else r.(started := true, releaseNeeded := r.releaseNeeded, releaseAt := r.releaseAt)
  {
    hide TimedMute, Deadline;
  }

  lemma Rewritten(r: Row, started: bool, needed: bool, at: Option<int>)
    ensures var a := r.(started := started, releaseNeeded := needed, releaseAt := at);
      a == r.(started := a.started, releaseNeeded := a.releaseNeeded, releaseAt := a.releaseAt)
  {
  }

  lemma AuthorityIs(g: Group, r: Row)
    requires Ready(g, r)
    ensures AuthorityHolds(g, r)
  {
  }

  /** The row, and the local variables, at the switch over the action. */
  function AtSwitch(p: Row): Row {
    if DeleteIsDue(p) then p.(deleted := true) else p
  }

  function RunAtSwitch(k: nat, p: Row): Run {
    if DeleteIsDue(p) then SeenRun(k, p).(mayHaveActed := true) else SeenRun(k, p)
  }

  lemma SwitchFacts(k: nat, p: Row)
    ensures var (r, run) := (AtSwitch(p), RunAtSwitch(k, p));
      && r == p.(deleted := r.deleted) && (p.deleted ==> r.deleted)
      && (p.decision.delete && p.decision.action != Ban && p.message > 0 ==> r.deleted)
      && run.k == k && run.caller == None && run.acted0 == p.acted && run.started0 == p.started && run.deleted0 == p.deleted
  {
    RunFields(k, p);
    if DeleteIsDue(p) {
      assert AtSwitch(p) == p.(deleted := true);
    } else {
      assert AtSwitch(p) == p;
    }
  }

  lemma RunFields(k: nat, p: Row)
    ensures var run := RunAtSwitch(k, p);
      run.k == k && run.caller == None && run.acted0 == p.acted && run.started0 == p.started && run.deleted0 == p.deleted
  {
    hide DeleteIsDue;
  }

  /** From the snapshot to the switch over the action: the message goes first unless a ban does. */
  lemma Approaches(c: Setting, s: MemberState, k: nat) returns (to: MemberState)
    requires k < |s.rows| && s.proc == Punishing(FirstRun(k, None).(pc := ReadRow)) && c.id.user >= 0
    requires s.rows[k].status == Pending && c.env.outcome == Accepted && !Spared(c, s.rows, s.rows[k])
    ensures var p := s.rows[k];
      to == s.(rows := s.rows[k := AtSwitch(p)], proc := ApproachTo(RunAtSwitch(k, p), AtSwitch(p), c.now))
    ensures Leads(c, s, to, DeleteCalls(k, s.rows[k]))
  {
    hide Leads, Stepped, Alone, NewerManual, EnterAction, Approach, Spared, EnterTo, ApproachTo, Permission, TimedMute;
    var p := s.rows[k];
    var entered := Enters(c, s, k);
    EnterDeletes(SeenRun(k, p), p, c.now);
    if DeleteIsDue(p) {
      to := s.(rows := s.rows[k := p.(deleted := true)],
               proc := ApproachTo(SeenRun(k, p).(mayHaveActed := true), p.(deleted := true), c.now));
      DeletesNow(c, s, k, entered, to);
    } else {
      to := entered;
    }
  }

  predicate DeleteIsDue(p: Row) {
    p.decision.delete && p.decision.action != Ban && !p.deleted && p.message > 0
  }

  lemma DeletesNow(c: Setting, s: MemberState, k: nat, entered: MemberState, to: MemberState)
    requires k < |s.rows| && s.rows[k].status == Pending && c.env.outcome == Accepted && DeleteIsDue(s.rows[k])
    requires entered == s.(rows := s.rows[k := s.rows[k]], proc := Punishing(SeenRun(k, s.rows[k]).(pc := PreDelete)))
    requires var (p, run) := (s.rows[k], SeenRun(k, s.rows[k]).(mayHaveActed := true));
      to == s.(rows := s.rows[k := p.(deleted := true)], proc := ApproachTo(run, p.(deleted := true), c.now))
    requires Leads(c, s, entered, [])
    ensures Leads(c, s, to, One(k, DeleteMessage))
  {
    hide Leads, Stepped, Alone, EnterTo, ApproachTo, DeleteIsDue;
    var p := s.rows[k];
    var run := SeenRun(k, p);
    Deletes(c, s, k, p, run);
    ApproachIgnores(run.(mayHaveActed := true), p, p.(deleted := true), c.now);
    Then(c, s, entered, to, [], One(k, DeleteMessage));
  }

  lemma Enters(c: Setting, s: MemberState, k: nat) returns (to: MemberState)
    requires k < |s.rows| && s.proc == Punishing(FirstRun(k, None).(pc := ReadRow)) && c.id.user >= 0
    requires s.rows[k].status == Pending && !Spared(c, s.rows, s.rows[k])
    ensures to == s.(rows := s.rows[k := s.rows[k]], proc := EnterTo(SeenRun(k, s.rows[k]), s.rows[k], c.now))
    ensures Leads(c, s, to, [])
  {
    hide Leads, Stepped, Alone, NewerManual, EnterAction, Spared;
    var p := s.rows[k];
    assert s.rows[k := p] == s.rows;
    assert On(s, k, p, FirstRun(k, None).(pc := ReadRow)) == s;
    ReadsRow(c, s, k, p);
    EntersAction(c, s, k, p, SeenRun(k, p));
    to := s.(rows := s.rows[k := p], proc := EnterTo(SeenRun(k, p), p, c.now));
    Then(c, s, On(s, k, p, SeenRun(k, p).(pc := PunishPc.Preflight)), to, [], []);
  }

  lemma ApproachIgnores(run: Run, p: Row, r: Row, now: int)
    requires r == p.(deleted := r.deleted)
    ensures ApproachTo(run, r, now) == ApproachTo(run, p, now)
  {
  }

  /** From behind the action to the end. */
  lemma Closes(c: Setting, s: MemberState, k: nat, p: Row, run: Run) returns (s': MemberState)
    requires k < |s.rows| && run.k == k && run.caller == None && run.deleted0 == p.deleted && c.env.outcome == Accepted
    requires Fixed(p, s.rows[k]) && s.rows[k].status == Pending && s.proc == Punishing(run.(pc := AfterAction(run, p)))
    ensures |s'.rows| == |s.rows| && s'.proc == Idle && Fixed(p, s'.rows[k])
    ensures s'.rows[k].status == PunishmentStatus.Done && s'.rows[k].acted == s.rows[k].acted
    ensures s'.rows[k].deleted == (s.rows[k].deleted || Punish.DeletesLast(p))
    ensures Leads(c, s, s', LastCalls(k, p) + NoticeCalls(k, Tells(s.rows, s.rows[k])))
  {
    hide Leads, Stepped, Alone, NewerManual, Tells, On, Permission, Fixed, Punish.DeletesLast, LastCalls, NoticeCalls;
    var mid, r := ClosesDelete(c, s, k, p, run);
    RowBehind(p, s.rows[k], Punish.DeletesLast(p));
    s' := s.(rows := s.rows[k := r.(status := PunishmentStatus.Done)], proc := Idle);
    Ends(c, s, k, r, run);
    SameTells(s.rows, k, r);
    Then(c, s, mid, s', LastCalls(k, p), NoticeCalls(k, Tells(s.rows, s.rows[k])));
  }

  lemma RowBehind(p: Row, r: Row, deletes: bool)
    requires Fixed(p, r)
    ensures var r' := if deletes then r.(deleted := true) else r;
      && Fixed(r, r') && r'.status == r.status && Fixed(p, r'.(status := PunishmentStatus.Done))
      && r'.acted == r.acted && r'.deleted == (r.deleted || deletes)
  {
  }

  lemma SameTells(rows: seq<Row>, k: nat, r: Row)
    requires k < |rows| && Fixed(rows[k], r) && r.status == rows[k].status
    ensures Tells(rows[k := r], r) == Tells(rows, rows[k])
  {
    hide NewerManual;
    SameManual(rows, rows[k := r]);
  }

  lemma ClosesDelete(c: Setting, s: MemberState, k: nat, p: Row, run: Run) returns (s': MemberState, r: Row)
    requires k < |s.rows| && run.k == k && run.deleted0 == p.deleted && c.env.outcome == Accepted
    requires Fixed(p, s.rows[k]) && s.rows[k].status == Pending && s.proc == Punishing(run.(pc := AfterAction(run, p)))
    ensures s' == On(s, k, r, run.(pc := Notify))
    ensures r == if Punish.DeletesLast(p) then s.rows[k].(deleted := true) else s.rows[k]
    ensures Leads(c, s, s', LastCalls(k, p))
  {
    hide Leads, Stepped, Alone, NewerManual, AfterAction, Fixed, Punish.DeletesLast;
    var row := s.rows[k];
    assert s.rows[k := row] == s.rows;
    AfterGoes(run, p);
    if Punish.DeletesLast(p) {
      DeletesLast(c, s, k, row, run);
      r := row.(deleted := true);
      s' := On(s, k, r, run.(pc := Notify));
    } else {
      r := row;
      s' := s;
      StaysPut(c, s);
    }
  }

  lemma AfterGoes(run: Run, p: Row)
    requires run.deleted0 == p.deleted
    ensures AfterAction(run, p) == if Punish.DeletesLast(p) then BanDelete else Notify
  {
  }

  /** Whatever an earlier attempt has left of it, a pending punishment under approval is carried
      out by an attempt that nothing disturbs: its calls are all those still due and no others,
      in order, and it ends done, with its action carried out and its message deleted. */
  lemma AttemptFinishes(c: Setting, s: MemberState, k: nat) returns (s': MemberState)
    requires k < |s.rows| && s.proc == Punishing(FirstRun(k, None).(pc := ReadRow)) && c.id.user >= 0
    requires c.env.outcome == Accepted && c.env.chatStatus != Kicked
    requires Ready(c.g, s.rows[k]) && !Spared(c, s.rows, s.rows[k]) && (s.rows[k].acted || CanAct(c, s.rows[k]))
    ensures |s'.rows| == |s.rows| && s'.proc == Idle && Fixed(s.rows[k], s'.rows[k])
    ensures s'.rows[k].status == PunishmentStatus.Done && s'.rows[k].acted && (WantsDelete(s.rows[k]) ==> s'.rows[k].deleted)
    ensures Leads(c, s, s', Programme(k, s.rows[k], s.rows[k].kickBanned, Tells(s.rows, s.rows[k])))
  {
    hide Leads, Stepped, Alone, NewerManual, EnterAction, Approach, Carrier, ActionCalls, DeleteCalls, NoticeCalls, LastCalls,
         Spared, CanAct, Tells, EnterTo, ApproachTo, Same, Punish.DeletesLast, Fixed, WantsDelete, On,
         AtSwitch, RunAtSwitch;
    var p := s.rows[k];
    var to := Approaches(c, s, k);
    s' := FromSwitch(c, s, k, to);
    Then(c, s, to, s', DeleteCalls(k, p),
         ActionCalls(k, p, p.kickBanned) + (LastCalls(k, p) + NoticeCalls(k, Tells(s.rows, p))));
  }

  lemma ReadyIsPending(g: Group, r: Row)
    requires Ready(g, r)
    ensures r.status == Pending
  {
  }

  /** The action, and what follows it. */
  lemma FromSwitch(c: Setting, s: MemberState, k: nat, to: MemberState) returns (s': MemberState)
    requires k < |s.rows| && c.env.outcome == Accepted && c.env.chatStatus != Kicked
    requires Ready(c.g, s.rows[k]) && (s.rows[k].acted || CanAct(c, s.rows[k]))
    requires var p := s.rows[k];
      to == s.(rows := s.rows[k := AtSwitch(p)], proc := ApproachTo(RunAtSwitch(k, p), AtSwitch(p), c.now))
    ensures |s'.rows| == |s.rows| && s'.proc == Idle && Fixed(s.rows[k], s'.rows[k])
    ensures s'.rows[k].status == PunishmentStatus.Done && s'.rows[k].acted && (WantsDelete(s.rows[k]) ==> s'.rows[k].deleted)
    ensures Leads(c, to, s', ActionCalls(k, s.rows[k], s.rows[k].kickBanned)
                             + (LastCalls(k, s.rows[k]) + NoticeCalls(k, Tells(s.rows, s.rows[k]))))
  {
    hide Leads, Stepped, Alone, NewerManual, EnterAction, Approach, Carrier, ActionCalls, DeleteCalls, NoticeCalls, LastCalls,
         CanAct, Tells, EnterTo, ApproachTo, Same, Punish.DeletesLast, Fixed, WantsDelete, On, AtSwitch, RunAtSwitch, AfterAction,
         Ready;
    ReadyIsPending(c.g, s.rows[k]);
    var p := s.rows[k];
    var r, run := AtSwitch(p), RunAtSwitch(k, p);
    SwitchFacts(k, p);
    var s1, r1 := Acts(c, s, k, p, r, run);
    ActedFixed(p, r, r1);
    s' := Closes(c, s1, k, p, s1.proc.run);
    OnlyManual(s.rows, k, p, r, s.rows, s.rows[k := r]);
    AfterActing(p, r, r1, s'.rows[k]);
    TellsAlike(s.rows, s1.rows, p, s1.rows[k]);
    Then(c, to, s1, s', ActionCalls(k, p, p.kickBanned), LastCalls(k, p) + NoticeCalls(k, Tells(s.rows, p)));
  }

  lemma ActedFixed(p: Row, r: Row, r': Row)
    requires r == p.(deleted := r.deleted) && p.status == Pending
    requires Same(p.(acted := true, deleted := r.deleted, started := r'.started, releaseNeeded := r'.releaseNeeded, releaseAt := r'.releaseAt), r')
    ensures Fixed(p, r) && Fixed(p, r') && r.status == r'.status == Pending && r'.acted && r'.deleted == r.deleted
  {
  }

  lemma AfterActing(p: Row, r: Row, r1: Row, r': Row)
    requires p.decision.delete && p.decision.action != Ban && p.message > 0 ==> r.deleted
    requires p.deleted ==> r.deleted
    requires r1.deleted == r.deleted && r'.deleted == (r1.deleted || Punish.DeletesLast(p))
    ensures WantsDelete(p) ==> r'.deleted
  {
  }

  lemma TellsAlike(rows: seq<Row>, rows': seq<Row>, p: Row, r: Row)
    requires Fixed(p, r) && forall at :: NewerManual(rows', at) == NewerManual(rows, at)
    ensures Tells(rows', r) == Tells(rows, p)
  {
  }

  /** A protected member, and one whom an administrator dealt with since, is left alone. */
  lemma SparedIsSkipped(c: Setting, s: MemberState, k: nat) returns (s': MemberState)
    requires k < |s.rows| && s.proc == Punishing(FirstRun(k, None).(pc := ReadRow)) && c.id.user >= 0
    requires s.rows[k].status == Pending && Spared(c, s.rows, s.rows[k])
    ensures s' == s.(rows := s.rows[k := s.rows[k].(status := Skipped)], proc := Idle) && Leads(c, s, s', [])
  {
    hide Leads, Stepped, Alone, NewerManual;
    var p := s.rows[k];
    assert s.rows[k := p] == s.rows;
    assert On(s, k, p, FirstRun(k, None).(pc := ReadRow)) == s;
    ReadsRow(c, s, k, p);
    IsSpared(c, s, k, p, SeenRun(k, p));
    s' := s.(rows := s.rows[k := p.(status := Skipped)], proc := Idle);
    Then(c, s, On(s, k, p, SeenRun(k, p).(pc := PunishPc.Preflight)), s', [], []);
  }

  /** A mute that was not begun before its end fails without a restriction: the member is never
      muted, and nothing has to be released. */
  lemma LateMuteFails(c: Setting, s: MemberState, k: nat) returns (s': MemberState)
    requires k < |s.rows| && s.proc == Punishing(FirstRun(k, None).(pc := ReadRow)) && c.id.user >= 0
    requires s.rows[k].status == Pending && c.env.outcome == Accepted && !Spared(c, s.rows, s.rows[k])
    requires var p := s.rows[k]; !p.acted && !p.started && TimedMute(p.decision) && c.now >= Deadline(p)
    ensures |s'.rows| == |s.rows| && s'.proc == Idle && s'.sessions == s.sessions
    ensures s'.rows[k] == s.rows[k].(status := Failed, deleted := s'.rows[k].deleted)
    ensures Leads(c, s, s', DeleteCalls(k, s.rows[k]))
  {
    hide Leads, Stepped, Alone, NewerManual, EnterAction;
    var p := s.rows[k];
    var r, run := AtSwitch(p), RunAtSwitch(k, p);
    SwitchFacts(k, p);
    var to := Approaches(c, s, k);
    assert to == On(s, k, r, run.(pc := MarkFailed));
    GivesUp(c, s, k, r, run);
    s' := s.(rows := s.rows[k := r.(status := Failed)], proc := Idle);
    Then(c, s, to, s', DeleteCalls(k, p), []);
  }

  /** A permission call that is definitely rejected, before anything of the punishment could have
      taken effect, ends it for good, and takes the write-ahead back. */
  lemma RejectionEnds(c: Setting, s: MemberState, k: nat) returns (s': MemberState)
    requires k < |s.rows| && s.proc == Punishing(FirstRun(k, None).(pc := ReadRow)) && c.id.user >= 0
    requires c.env.outcome == Rejected && Ready(c.g, s.rows[k]) && !Spared(c, s.rows, s.rows[k])
    requires var p := s.rows[k];
      !p.acted && !p.deleted && !p.started && !DeleteIsDue(p) && CanAct(c, p) && Permission(p.decision.action) && p.decision.action != Kick
    ensures |s'.rows| == |s.rows| && s'.proc == Idle && s'.sessions == s.sessions
    ensures s'.rows[k].status == Failed && !s'.rows[k].started && !s'.rows[k].releaseNeeded && s'.rows[k].sent == s.rows[k].sent
    ensures Carrier(s.rows[k]).Some? && Leads(c, s, s', [Sent(FromPunishment(k), Carrier(s.rows[k]).value, Rejected)])
  {
    hide Leads, Stepped, Alone, NewerManual, EnterAction, Spared, Approach, Carrier, EnterTo, ApproachTo, StartedRow;
    var p := s.rows[k];
    var run := SeenRun(k, p);
    var entered := Enters(c, s, k);
    EnterDeletes(run, p, c.now);
    var first, run1, started, before := Begins(c, s, k, p, run);
    StartedFields(p);
    Then(c, s, entered, first, [], []);
    s' := IsRejected(c, s, k, started, run1);
    CarrierIsSome(p, started);
    Then(c, s, first, s', [], [Sent(FromPunishment(k), Carrier(p).value, Rejected)]);
  }

  lemma CarrierIsSome(p: Row, r: Row)
    requires Permission(p.decision.action) && p.decision.action != Kick && r.decision == p.decision
    ensures Carrier(p).Some? && Carrier(r) == Carrier(p) && Carrier(p).value != Notice
  {
  }

  lemma IsRejected(c: Setting, s: MemberState, k: nat, r: Row, run: Run) returns (s': MemberState)
    requires k < |s.rows| && run.k == k && !run.mayHaveActed && c.env.outcome == Rejected
    requires r.status == Pending && r.workflow && Permission(r.decision.action) && r.decision.action != Kick
    ensures s' == s.(rows := s.rows[k := r.(status := Failed, releaseNeeded := false, started := false, rejected := true)], proc := Idle)
    ensures Carrier(r).Some?
    ensures Leads(c, On(s, k, r, run.(pc := MainCall)), s', [Sent(FromPunishment(k), Carrier(r).value, Rejected)])
  {
    hide Leads, PreflightStep, DeleteStep, StartStep, KickStep, DoComplete, SenderStep, Stepped, MainCallOf, Carrier, UntilDate;
    var a := On(s, k, r, run.(pc := MainCall));
    var b := On(s, k, r, run.(pc := Reject));
    var r' := r.(status := Failed, releaseNeeded := false, started := false, rejected := true);
    s' := s.(rows := s.rows[k := r'], proc := Idle);
    StepOn(c, a);
    StepOn(c, b);
    CarrierIsCalled(r);
    CarrierIsSome(r, r);
    assert s.rows[k := r][k := r] == s.rows[k := r];
    assert s.rows[k := r][k := r'] == s.rows[k := r'];
    TwoSteps(c, a, b, s', Sent(FromPunishment(k), Carrier(r).value, Rejected));
  }

  // ---------------------------------------------------------------- channel identities

  /** A channel identity loses its message and is warned, as far as that is still due. */
  lemma SenderFinishes(c: Setting, s: MemberState, k: nat) returns (s': MemberState)
    requires k < |s.rows| && s.proc == Punishing(FirstRun(k, None).(pc := ReadRow)) && c.id.user < 0
    requires c.env.outcome == Accepted && s.rows[k].status == Pending
    requires s.rows[k].decision.action == Warn || s.rows[k].decision.action == Delete
    ensures |s'.rows| == |s.rows| && s' == s.(rows := s.rows[k := s'.rows[k]], proc := Idle)
    ensures s'.rows[k].status == PunishmentStatus.Done
    ensures Leads(c, s, s', SenderProgramme(k, s.rows[k]))
  {
    hide Leads, Stepped, Alone, SenderTo, SenderProgramme, SeenRun;
    var first := ReadsSender(c, s, k);
    SeenFacts(k, s.rows[k]);
    s' := FromSender(c, s, k, s.rows[k], SeenRun(k, s.rows[k]), first);
    Then(c, s, first, s', [], SenderProgramme(k, s.rows[k]));
  }

  lemma FromSender(c: Setting, s: MemberState, k: nat, p: Row, run: Run, first: MemberState) returns (s': MemberState)
    requires k < |s.rows| && run.k == k && run.caller == None && run.acted0 == p.acted && c.env.outcome == Accepted
    requires p.status == Pending && (p.decision.action == Warn || p.decision.action == Delete)
    requires first == s.(rows := s.rows[k := p], proc := SenderTo(run, p))
    ensures |s'.rows| == |s.rows| && s' == s.(rows := s.rows[k := s'.rows[k]], proc := Idle)
    ensures s'.rows[k].status == PunishmentStatus.Done
    ensures Leads(c, first, s', SenderProgramme(k, p))
  {
    hide Leads, Stepped, Alone, SenderTo, AfterDeleteTo, SenderDeletes, SenderWarns, SenderProgramme;
    SenderCalls(k, p);
    var mid, r := SenderDeletesDue(c, s, k, p, run, first);
    s' := WarnsAndEnds(c, s, k, p, r, run, mid);
    Then(c, first, mid, s', SenderDeletes(k, p), SenderWarns(k, p));
  }

  lemma SenderCalls(k: nat, p: Row)
    requires p.decision.action == Warn || p.decision.action == Delete
    ensures SenderProgramme(k, p) == SenderDeletes(k, p) + SenderWarns(k, p)
  {
    hide SenderDeletes, SenderWarns;
  }

  lemma SeenFacts(k: nat, p: Row)
    ensures SeenRun(k, p).k == k && SeenRun(k, p).caller == None && SeenRun(k, p).acted0 == p.acted
  {
  }

  lemma SenderDeletesDue(c: Setting, s: MemberState, k: nat, p: Row, run: Run, first: MemberState) returns (mid: MemberState, r: Row)
    requires k < |s.rows| && run.k == k && run.acted0 == p.acted && c.env.outcome == Accepted && p.status == Pending
    requires first == s.(rows := s.rows[k := p], proc := SenderTo(run, p))
    requires p.decision.action == Warn || p.decision.action == Delete
    ensures r == p.(deleted := r.deleted) && mid == s.(rows := s.rows[k := r], proc := AfterDeleteTo(run, p))
    ensures Leads(c, first, mid, SenderDeletes(k, p))
  {
    hide Leads, Stepped, Alone, AfterDeleteTo;
    if !p.deleted && (p.decision.delete || p.decision.action == Delete) {
      r := p.(deleted := true);
      mid := s.(rows := s.rows[k := r], proc := AfterDeleteTo(run, p));
      SenderDeletesNow(c, s, k, p, run);
    } else {
      r, mid := p, first;
      StaysPut(c, first);
    }
  }

  lemma ReadsSender(c: Setting, s: MemberState, k: nat) returns (to: MemberState)
    requires k < |s.rows| && s.proc == Punishing(FirstRun(k, None).(pc := ReadRow)) && c.id.user < 0
    requires s.rows[k].status == Pending
    requires s.rows[k].decision.action == Warn || s.rows[k].decision.action == Delete
    ensures to == s.(rows := s.rows[k := s.rows[k]], proc := SenderTo(SeenRun(k, s.rows[k]), s.rows[k]))
    ensures Leads(c, s, to, [])
  {
    hide Leads, DeleteStep, StartStep, DoMainCall, KickStep, DoComplete, TailStep, SenderStep, Stepped;
    assert s.rows[k := s.rows[k]] == s.rows;
    StepOn(c, s);
    OneStep(c, s);
    to := Stepped(c, s).0;
  }

  lemma SenderDeletesNow(c: Setting, s: MemberState, k: nat, r: Row, run: Run)
    requires k < |s.rows| && run.k == k && run.acted0 == r.acted && c.env.outcome == Accepted && r.status == Pending
    ensures Leads(c, On(s, k, r, run.(pc := SenderDelete)),
                  s.(rows := s.rows[k := r.(deleted := true)], proc := AfterDeleteTo(run, r)), One(k, DeleteMessage))
  {
    hide Leads, PreflightStep, DeleteStep, StartStep, DoMainCall, KickStep, DoComplete, TailStep, Stepped;
    var a := On(s, k, r, run.(pc := SenderDelete));
    var b := On(s, k, r, run.(pc := SenderMark));
    var to := s.(rows := s.rows[k := r.(deleted := true)], proc := AfterDeleteTo(run, r));
    StepOn(c, a);
    StepOn(c, b);
    assert StepDeleted(r) == r.(deleted := true);
    assert s.rows[k := r][k := r.(deleted := true)] == s.rows[k := r.(deleted := true)];
    TwoSteps(c, a, b, to, Sent(FromPunishment(k), DeleteMessage, Accepted));
  }

  lemma WarnsAndEnds(c: Setting, s: MemberState, k: nat, p: Row, r: Row, run: Run, from: MemberState) returns (s': MemberState)
    requires k < |s.rows| && run.k == k && run.caller == None && c.env.outcome == Accepted
    requires r.status == Pending && from == s.(rows := s.rows[k := r], proc := AfterDeleteTo(run, p))
    ensures |s'.rows| == |s.rows| && s' == s.(rows := s.rows[k := s'.rows[k]], proc := Idle)
    ensures s'.rows[k].status == PunishmentStatus.Done
    ensures Leads(c, from, s', SenderWarns(k, p))
  {
    hide Leads, Stepped, Alone;
    if p.decision.action == Warn && !p.acted {
      Warns(c, s, k, r, run);
      s' := EndsSender(c, s, k, r.(acted := true), run);
      Then(c, from, On(s, k, r.(acted := true), run.(pc := MarkDone)), s', One(k, Notice), []);
    } else {
      s' := EndsSender(c, s, k, r, run);
    }
  }

  lemma Warns(c: Setting, s: MemberState, k: nat, r: Row, run: Run)
    requires k < |s.rows| && run.k == k && c.env.outcome == Accepted && r.status == Pending
    ensures Leads(c, On(s, k, r, run.(pc := SenderNotice)), On(s, k, r.(acted := true), run.(pc := MarkDone)), One(k, Notice))
  {
    hide Leads, PreflightStep, DeleteStep, StartStep, DoMainCall, KickStep, DoComplete, TailStep, Stepped;
    var a := On(s, k, r, run.(pc := SenderNotice));
    var b := On(s, k, r, run.(pc := SenderAct));
    var to := On(s, k, r.(acted := true), run.(pc := MarkDone));
    StepOn(c, a);
    StepOn(c, b);
    assert StepActed(r) == r.(acted := true);
    assert s.rows[k := r][k := r.(acted := true)] == s.rows[k := r.(acted := true)];
    TwoSteps(c, a, b, to, Sent(FromPunishment(k), Notice, Accepted));
  }

  lemma EndsSender(c: Setting, s: MemberState, k: nat, r: Row, run: Run) returns (s': MemberState)
    requires k < |s.rows| && run.k == k && run.caller == None && r.status == Pending
    ensures s' == s.(rows := s.rows[k := r.(status := PunishmentStatus.Done)], proc := Idle)
    ensures Leads(c, On(s, k, r, run.(pc := MarkDone)), s', [])
  {
    hide Leads, PreflightStep, DeleteStep, StartStep, DoMainCall, KickStep, DoComplete, SenderStep, Stepped;
    var a := On(s, k, r, run.(pc := MarkDone));
    StepOn(c, a);
    OneStep(c, a);
    assert StepDone(r) == r.(status := PunishmentStatus.Done);
    assert s.rows[k := r][k := r.(status := PunishmentStatus.Done)] == s.rows[k := r.(status := PunishmentStatus.Done)];
    s' := s.(rows := s.rows[k := r.(status := PunishmentStatus.Done)], proc := Idle);
  }

  // ---------------------------------------------------------------- from the beginning

  /** The decision that is stored: a repeated advertisement that would be deleted is muted
      instead, and a ban of a known message deletes it. */
  predicate StoredDecision(l: Label, d: Decision)
    requires l.BeginPunish?
  {
    var asked := l.decision;
    if (l.source == Automatic || l.source == Review) && l.repeat.Some? && asked.delete && asked.action != Ban
       && asked.reason != LocalAdReview
    then d == Decision(Mute, true, l.repeat.value, RepeatedAd)
    else if asked.action == Ban && l.message > 0 then d == asked.(delete := true)
    else d == asked
  }

  /** The attempt begins with the row of its key: the stored one, unchanged but for a workflow it
      may have lacked, or a new one with the decision to be stored. */
  lemma BeginsAttempt(c: Setting, s: MemberState, l: Label) returns (k: nat, s': MemberState)
    requires s.proc == Idle && l.BeginPunish? && l.decision.action != Allow && l.decision.action != ShadowLog
    requires l.key.SelfUnmute? ==> HasKey(s.rows, l.key)
    requires !(l.already && (l.source == Automatic || l.source == Review) && l.decision.delete && l.decision.action != Ban)
    requires s.rows == [] || c.now > s.rows[|s.rows| - 1].createdAt
    ensures k < |s'.rows| && s'.rows[k].key == l.key && s'.rows[k].workflow && s'.sessions == s.sessions
    ensures s'.proc == Punishing(FirstRun(k, None).(pc := ReadRow))
    ensures HasKey(s.rows, l.key) ==>
      |s'.rows| == |s.rows| && k < |s.rows| && s'.rows == s.rows[k := s'.rows[k]]
      && (s.rows[k].workflow ==> s'.rows[k] == s.rows[k])
    ensures !HasKey(s.rows, l.key) ==>
      k == |s.rows| && s'.rows == s.rows + [s'.rows[k]] && NewlyStored(c, l, s'.rows[k])
    ensures Leads(c, Next(c.id, c.g, c.now, s, l).0, s', [])
  {
    hide Leads, HasKey, KeyIndex, Alone;
    var begun := Begin(s, l, c.now);
    var plan := begun.proc.plan.(createdAt := c.now);
    Inserted(s.rows, plan);
    k := KeyIndex(InsertRow(s.rows, plan), l.key);
    OneStep(c, begun);
    var stored := Stepped(c, begun).0;
    assert stored == On(stored, k, stored.rows[k], FirstRun(k, None)) by { assert stored.rows[k := stored.rows[k]] == stored.rows; }
    OnlyOne(s.rows, plan, k);
    s' := AddsWorkflow(c, stored, k);
    Then(c, begun, stored, s', [], []);
  }

  predicate NewlyStored(c: Setting, l: Label, r: Row)
    requires l.BeginPunish?
  {
    && r.message == l.message && r.source == l.source && r.createdAt == c.now && StoredDecision(l, r.decision)
    && r.status == Pending && r.version == c.g.epoch
    && !r.deleted && !r.acted && !r.started && !r.kickBanned && !r.releaseNeeded && !r.sent
  }

  lemma OnlyOne(rows: seq<Row>, r: Row, k: nat)
    requires k < |InsertRow(rows, r)| && InsertRow(rows, r)[k].key == r.key
    ensures HasKey(rows, r.key) ==> k < |rows|
    ensures !HasKey(rows, r.key) ==> k == |rows|
  {
  }

  lemma AddsWorkflow(c: Setting, s: MemberState, k: nat) returns (s': MemberState)
    requires k < |s.rows| && s.proc == Punishing(FirstRun(k, None))
    ensures s' == On(s, k, InsertWorkflow(c.g, s.rows[k]), FirstRun(k, None).(pc := ReadRow))
    ensures Leads(c, s, s', [])
  {
    hide Leads, DeleteStep, StartStep, DoMainCall, KickStep, DoComplete, TailStep, SenderStep, Stepped;
    StepOn(c, s);
    OneStep(c, s);
    s' := Stepped(c, s).0;
  }
}
