/** Every step keeps the invariant of a member. */
module Preservation {
  import opened Domain
  import opened Tables
  import opened Machine
  import opened Invariant

  // ---------------------------------------------------------------- one row changes

  /** What no step may undo in a row. */
  predicate Evolves(r: Row, r': Row) {
    && r'.key == r.key && r'.message == r.message && r'.decision == r.decision
    && r'.source == r.source && r'.createdAt == r.createdAt
    && (r.status != Pending ==> r'.status == r.status)
    && (r.deleted ==> r'.deleted) && (r.acted ==> r'.acted)
    && (r.workflow ==> r'.workflow && r'.version == r.version)
    && (r.kickBanned ==> r'.kickBanned) && (r.unbanned ==> r'.unbanned)
    && (r.started ==> r'.started || r'.rejected)
    && (r.sent ==> r'.sent) && (r.rejected ==> r'.rejected) && (r.revoked ==> r'.revoked)
  }

  lemma SelfUnmuteStays(rows: seq<Row>, rows': seq<Row>, t: nat)
    requires SelfUnmuteDone(rows, t) && |rows| <= |rows'|
    requires forall i :: 0 <= i < |rows| ==> Evolves(rows[i], rows'[i])
    ensures SelfUnmuteDone(rows', t)
  {
    var i :| 0 <= i < |rows| && rows[i].key == SelfUnmute(t) && rows[i].status == Done && rows[i].acted;
    assert Evolves(rows[i], rows'[i]);
  }

  lemma OwnStays(rows: seq<Row>, rows': seq<Row>, sessions: seq<Session>)
    requires OwnInv(rows, sessions) && |rows| <= |rows'|
    requires forall i :: 0 <= i < |rows| ==> Evolves(rows[i], rows'[i])
    ensures OwnInv(rows', sessions)
  {
    forall t | 0 <= t < |sessions| && sessions[t].own && sessions[t].status == Verified
      ensures SelfUnmuteDone(rows', t)
    {
      SelfUnmuteStays(rows, rows', t);
    }
  }

  lemma PutKeepsRows(user: int, epoch: nat, now: int, rows: seq<Row>, k: nat, r: Row)
    requires RowsInv(user, epoch, now, rows) && k < |rows|
    requires RowInv(user, epoch, now, r) && Evolves(rows[k], r)
    requires ManualActed(r) ==> ManualActed(rows[k])
    ensures RowsInv(user, epoch, now, rows[k := r])
  {
    var rows' := rows[k := r];
    forall i, j | 0 <= i < j < |rows'| && ManualActed(rows'[j])
      ensures rows'[i].status != Pending
    {
      assert ManualActed(rows[j]);
      assert rows[i].status != Pending;
    }
  }

  /** A step of a punishment program that changes only its own row. */
  lemma RunKeeps(user: int, epoch: nat, now: int, s: MemberState, r: Row, run: Run)
    requires MemberInv(user, epoch, now, s) && s.proc.Punishing?
    requires run.k == s.proc.run.k && run.caller == s.proc.run.caller
    requires RowInv(user, epoch, now, r) && Evolves(s.rows[run.k], r)
    requires ManualActed(r) ==> ManualActed(s.rows[run.k])
    requires run.pc == ReadRow ==> r.workflow
    requires PastRead(run.pc) ==> PunishInv(user, now, r, run) == true  // one fact, not one per stage
    requires PastRead(run.pc) && !PastRead(s.proc.run.pc) ==> s.rows[run.k].status == Pending
    ensures MemberInv(user, epoch, now, Put(s, run.k, r).(proc := Punishing(run)))
  {
    PutKeepsRows(user, epoch, now, s.rows, run.k, r);
    OwnStays(s.rows, s.rows[run.k := r], s.sessions);
  }

  /** The program ends, or hands over to the self session that called it. */
  lemma EndKeeps(user: int, epoch: nat, now: int, s: MemberState, r: Row)
    requires MemberInv(user, epoch, now, s) && s.proc.Punishing?
    requires RowInv(user, epoch, now, r) && Evolves(s.rows[s.proc.run.k], r)
    requires ManualActed(r) ==> ManualActed(s.rows[s.proc.run.k])
    ensures MemberInv(user, epoch, now, Drop(Put(s, s.proc.run.k, r)))
    ensures MemberInv(user, epoch, now, Return(Put(s, s.proc.run.k, r), s.proc.run))
  {
    PutKeepsRows(user, epoch, now, s.rows, s.proc.run.k, r);
    OwnStays(s.rows, s.rows[s.proc.run.k := r], s.sessions);
  }

  // ---------------------------------------------------------------- punishment programs

  lemma Facts(user: int, epoch: nat, now: int, s: MemberState)
    requires MemberInv(user, epoch, now, s) && s.proc.Punishing?
    ensures s.proc.run.k < |s.rows|
    ensures RowInv(user, epoch, now, s.rows[s.proc.run.k])
    ensures s.proc.run.pc == ReadRow ==> s.rows[s.proc.run.k].workflow
    ensures PastRead(s.proc.run.pc) ==> PunishInv(user, now, s.rows[s.proc.run.k], s.proc.run)
    ensures s.proc.run.pc == MainCall || s.proc.run.pc == KickBan || s.proc.run.pc == Complete ==> user >= 0
    ensures s.proc.run.pc == MainCall ==> s.rows[s.proc.run.k].decision.action != Kick
  {
  }

  lemma Parts(user: int, epoch: nat, now: int, s: MemberState)
    requires MemberInv(user, epoch, now, s) && s.proc.Punishing?
    ensures RowsInv(user, epoch, now, s.rows) && SessionsInv(now, s.sessions) && OwnInv(s.rows, s.sessions)
    ensures RunInv(user, now, s.rows, s.proc.run)
    ensures CallerInv(s.sessions, s.proc.run.caller, s.rows[s.proc.run.k].key)
    ensures s.rows[s.proc.run.k].key.SelfUnmute? ==> s.rows[s.proc.run.k].decision.reason == SelfVerification
  {
  }

  lemma Whole(user: int, epoch: nat, now: int, s: MemberState, s': MemberState)
    requires MemberInv(user, epoch, now, s)
    requires s'.due == s.due && |s'.rows| == |s.rows|
    requires forall i :: 0 <= i < |s.rows| ==> s'.rows[i].decision == s.rows[i].decision
    requires RowsInv(user, epoch, now, s'.rows) && SessionsInv(now, s'.sessions) && OwnInv(s'.rows, s'.sessions)
    requires s'.proc.Punishing? && RunInv(user, now, s'.rows, s'.proc.run)
    requires CallerInv(s'.sessions, s'.proc.run.caller, s'.rows[s'.proc.run.k].key)
    ensures MemberInv(user, epoch, now, s')
  {
  }

  /** A step of a punishment program that changes no row. */
  lemma MoveKeeps(user: int, epoch: nat, now: int, s: MemberState, run: Run)
    requires MemberInv(user, epoch, now, s) && s.proc.Punishing?
    requires run.k == s.proc.run.k && run.caller == s.proc.run.caller && PastRead(run.pc)
    requires PunishInv(user, now, s.rows[run.k], run) == true
    requires !PastRead(s.proc.run.pc) ==> s.rows[run.k].status == Pending
    ensures MemberInv(user, epoch, now, s.(proc := Punishing(run)))
  {
    assert Put(s, run.k, s.rows[run.k]) == s;
    RunKeeps(user, epoch, now, s, s.rows[run.k], run);
  }

  lemma DropKeeps(user: int, epoch: nat, now: int, s: MemberState)
    requires MemberInv(user, epoch, now, s)
    ensures MemberInv(user, epoch, now, Drop(s))
    ensures s.proc.Punishing? ==> MemberInv(user, epoch, now, Return(s, s.proc.run))
  {
  }

  lemma DeletedInv(user: int, epoch: nat, now: int, r: Row)
    requires RowInv(user, epoch, now, r)
    ensures RowInv(user, epoch, now, StepDeleted(r)) && Evolves(r, StepDeleted(r))
    ensures ManualActed(StepDeleted(r)) ==> ManualActed(r)
  {
    if r.status == Pending {
      assert StepDeleted(r) == r.(deleted := true);
    } else {
      assert StepDeleted(r) == r;
    }
  }

  lemma RefusedKeeps(user: int, epoch: nat, now: int, s: MemberState, r: Row, o: Outcome)
    requires MemberInv(user, epoch, now, s) && s.proc.Punishing? && PastRead(s.proc.run.pc)
    requires user >= 0
    requires RowInv(user, epoch, now, r) && Evolves(s.rows[s.proc.run.k], r)
    requires ManualActed(r) ==> ManualActed(s.rows[s.proc.run.k])
    requires r.deleted == s.rows[s.proc.run.k].deleted && r.status == s.rows[s.proc.run.k].status
    requires o == Rejected ==> r == s.rows[s.proc.run.k]
    ensures MemberInv(user, epoch, now, Refused(Put(s, s.proc.run.k, r), s.proc.run, o))
  {
    hide MemberInv;
    Facts(user, epoch, now, s);
    var run := s.proc.run;
    EndKeeps(user, epoch, now, s, r);
    if o == Rejected && !run.mayHaveActed {
      RunKeeps(user, epoch, now, s, r, run.(pc := Reject));
    }
  }

  lemma ApproachKeeps(user: int, epoch: nat, now: int, s: MemberState, run: Run, r: Row)
    requires MemberInv(user, epoch, now, s) && s.proc.Punishing? && PastRead(s.proc.run.pc)
    requires user >= 0 && run.k == s.proc.run.k && run.caller == s.proc.run.caller
    requires RowInv(user, epoch, now, r) && Evolves(s.rows[run.k], r)
    requires ManualActed(r) ==> ManualActed(s.rows[run.k])
    requires PunishInv(user, now, r, run.(pc := Preflight))
    requires r.acted ==> run.acted0
    requires r.status == Pending && WantsDelete(r) && r.decision.action != Ban ==> r.deleted
    requires r.status == Pending && run.deleted0 ==> r.deleted
    ensures MemberInv(user, epoch, now, Approach(Put(s, run.k, r), run, r, now))
  {
    hide MemberInv, RowInv, PunishInv, Evolves, ManualActed;
    Facts(user, epoch, now, s);
    ApproachStages(user, now, r, run);
    if run.acted0 {
      RunKeeps(user, epoch, now, s, r, run.(pc := AfterAction(run, r)));
    } else if TimedMute(r.decision) && !run.started0 && now >= Deadline(r) {
      RunKeeps(user, epoch, now, s, r, run.(pc := MarkFailed));
    } else if Permission(r.decision.action) {
      RunKeeps(user, epoch, now, s, r, run.(pc := StartCall));
    } else if r.decision.action == Delete || r.decision.action == Warn {
      RunKeeps(user, epoch, now, s, r, run.(pc := MainCall));
    } else {
      EndKeeps(user, epoch, now, s, r);
    }
  }

  /** Each stage that the action may start with knows what it needs. */
  lemma ApproachStages(user: int, now: int, r: Row, run: Run)
    requires user >= 0 && PunishInv(user, now, r, run.(pc := Preflight))
    requires r.acted ==> run.acted0
    requires r.status == Pending && WantsDelete(r) && r.decision.action != Ban ==> r.deleted
    requires r.status == Pending && run.deleted0 ==> r.deleted
    ensures run.acted0 ==> PunishInv(user, now, r, run.(pc := AfterAction(run, r))) == true
    ensures !run.acted0 ==>
      && (TimedMute(r.decision) && now >= Deadline(r) ==> PunishInv(user, now, r, run.(pc := MarkFailed)) == true)
      && (Permission(r.decision.action) ==> PunishInv(user, now, r, run.(pc := StartCall)) == true)
      && (r.decision.action == Delete || r.decision.action == Warn ==> PunishInv(user, now, r, run.(pc := MainCall)) == true)
  {
  }

  lemma EnterActionKeeps(user: int, epoch: nat, now: int, s: MemberState)
    requires MemberInv(user, epoch, now, s) && s.proc.Punishing? && user >= 0
    requires s.proc.run.pc == Preflight || s.proc.run.pc == CheckNewer
    ensures MemberInv(user, epoch, now, EnterAction(s, s.proc.run, s.rows[s.proc.run.k], now))
  {
    hide MemberInv;
    Facts(user, epoch, now, s);
    var run := s.proc.run;
    var r := s.rows[run.k];
    if r.decision.delete && r.decision.action != Ban && !run.deleted0 && r.message > 0 {
      MoveKeeps(user, epoch, now, s, run.(pc := PreDelete));
    } else {
      assert Put(s, run.k, r) == s;
      ApproachKeeps(user, epoch, now, s, run, r);
    }
  }

  lemma AddWorkflowKeeps(id: MemberId, g: Group, now: int, s: MemberState, env: Env)
    requires MemberInv(id.user, g.epoch, now, s) && s.proc.Punishing? && s.proc.run.pc == AddWorkflow
    requires s.proc.run.k < |s.rows|
    ensures MemberInv(id.user, g.epoch, now, PreflightStep(id, g, now, s, s.proc.run, s.rows[s.proc.run.k], env))
  {
    hide MemberInv;
    Facts(id.user, g.epoch, now, s);
    var run := s.proc.run;
    RunKeeps(id.user, g.epoch, now, s, InsertWorkflow(g, s.rows[run.k]), run.(pc := ReadRow));
  }

  /** What a program knows once it has read its row. */
  lemma SnapshotInv(user: int, epoch: nat, now: int, r: Row, run: Run)
    requires RowInv(user, epoch, now, r) && r.status == Pending && r.workflow
    ensures var seen := run.(deleted0 := r.deleted, acted0 := r.acted, started0 := r.started,
                             mayHaveActed := r.acted || r.deleted || r.started);
      && (user >= 0 ==> PunishInv(user, now, r, seen.(pc := Preflight)) == true)
      && (user < 0 && (r.decision.action == Warn || r.decision.action == Delete) ==>
            && PunishInv(user, now, r, seen.(pc := SenderDelete)) == true
            && PunishInv(user, now, r, seen.(pc := MarkDone)) == true
            && (r.decision.action == Warn ==> PunishInv(user, now, r, seen.(pc := SenderNotice)) == true))
  {
  }

  lemma ReadRowKeeps(id: MemberId, g: Group, now: int, s: MemberState, env: Env)
    requires MemberInv(id.user, g.epoch, now, s) && s.proc.Punishing? && s.proc.run.pc == ReadRow
    requires s.proc.run.k < |s.rows|
    ensures MemberInv(id.user, g.epoch, now, PreflightStep(id, g, now, s, s.proc.run, s.rows[s.proc.run.k], env))
  {
    hide MemberInv, RowInv, PunishInv;
    Facts(id.user, g.epoch, now, s);
    DropKeeps(id.user, g.epoch, now, s);
    var run := s.proc.run;
    var r := s.rows[run.k];
    if r.status == Pending {
      SnapshotInv(id.user, g.epoch, now, r, run);
      var seen := run.(deleted0 := r.deleted, acted0 := r.acted, started0 := r.started,
                       mayHaveActed := r.acted || r.deleted || r.started);
      if id.user >= 0 {
        MoveKeeps(id.user, g.epoch, now, s, seen.(pc := Preflight));
      } else if r.decision.action == Warn || r.decision.action == Delete {
        if !r.deleted && (r.decision.delete || r.decision.action == Delete) {
          MoveKeeps(id.user, g.epoch, now, s, seen.(pc := SenderDelete));
        } else if r.decision.action == Warn && !r.acted {
          MoveKeeps(id.user, g.epoch, now, s, seen.(pc := SenderNotice));
        } else {
          MoveKeeps(id.user, g.epoch, now, s, seen.(pc := MarkDone));
        }
      }
    }
  }

  lemma PreflightKeeps(id: MemberId, g: Group, now: int, s: MemberState, env: Env)
    requires MemberInv(id.user, g.epoch, now, s) && s.proc.Punishing?
    requires s.proc.run.pc == Preflight || s.proc.run.pc == CheckNewer || s.proc.run.pc == MarkSkipped
    requires s.proc.run.k < |s.rows|
    ensures MemberInv(id.user, g.epoch, now, PreflightStep(id, g, now, s, s.proc.run, s.rows[s.proc.run.k], env))
  {
    hide MemberInv;
    Facts(id.user, g.epoch, now, s);
    var run := s.proc.run;
    if run.pc == MarkSkipped {
      EndKeeps(id.user, g.epoch, now, s, StepSkipped(s.rows[run.k]));
    } else {
      MoveKeeps(id.user, g.epoch, now, s, run.(pc := MarkSkipped));
      MoveKeeps(id.user, g.epoch, now, s, run.(pc := CheckNewer));
      EnterActionKeeps(id.user, g.epoch, now, s);
    }
  }

  lemma PreDeleteKeeps(id: MemberId, g: Group, now: int, s: MemberState, env: Env)
    requires MemberInv(id.user, g.epoch, now, s) && s.proc.Punishing?
    requires s.proc.run.pc == PreDelete || s.proc.run.pc == MarkPreDeleted
    requires s.proc.run.k < |s.rows|
    ensures MemberInv(id.user, g.epoch, now, DeleteStep(now, s, s.proc.run, s.rows[s.proc.run.k], env).0)
  {
    hide MemberInv;
    Facts(id.user, g.epoch, now, s);
    var run := s.proc.run;
    var r := s.rows[run.k];
    if run.pc == PreDelete {
      MoveKeeps(id.user, g.epoch, now, s, run.(mayHaveActed := true, pc := MarkPreDeleted));
      assert Put(s, run.k, r) == s;
      RefusedKeeps(id.user, g.epoch, now, s, r, env.outcome);
    } else {
      DeletedInv(id.user, g.epoch, now, r);
      ApproachKeeps(id.user, g.epoch, now, s, run, StepDeleted(r));
    }
  }

  lemma StartCallKeeps(id: MemberId, g: Group, now: int, s: MemberState, env: Env)
    requires MemberInv(id.user, g.epoch, now, s) && s.proc.Punishing? && s.proc.run.pc == StartCall
    requires s.proc.run.k < |s.rows|
    ensures MemberInv(id.user, g.epoch, now, StartStep(g, now, s, s.proc.run, s.rows[s.proc.run.k]))
  {
    hide MemberInv;
    Facts(id.user, g.epoch, now, s);
    DropKeeps(id.user, g.epoch, now, s);
    var run := s.proc.run;
    var r := s.rows[run.k];
    var r' := StartPermission(g, r, Until(r));
    if r'.Some? {
      var next := if r.decision.action == Kick then KickRead
                  else if TimedMute(r.decision) then CheckDeadline else MainCall;
      RunKeeps(id.user, g.epoch, now, s, r'.value, run.(pc := next));
    }
  }

  lemma DeadlineKeeps(id: MemberId, g: Group, now: int, s: MemberState, env: Env)
    requires MemberInv(id.user, g.epoch, now, s) && s.proc.Punishing? && (s.proc.run.pc == CheckDeadline || s.proc.run.pc == MarkFailed)
    requires s.proc.run.k < |s.rows|
    ensures MemberInv(id.user, g.epoch, now, StartStep(g, now, s, s.proc.run, s.rows[s.proc.run.k]))
  {
    hide MemberInv;
    Facts(id.user, g.epoch, now, s);
    DropKeeps(id.user, g.epoch, now, s);
    var run := s.proc.run;
    var r := s.rows[run.k];
    if run.pc == CheckDeadline {
      var seconds := Seconds(Deadline(r) - now);
      MoveKeeps(id.user, g.epoch, now, s,
                if seconds > 0 then run.(seconds := seconds, pc := MainCall) else run.(pc := MarkFailed));
    } else {
      EndKeeps(id.user, g.epoch, now, s, FailPunishment(r));
    }
  }

  lemma MainCallKeeps(id: MemberId, g: Group, now: int, s: MemberState, env: Env)
    requires MemberInv(id.user, g.epoch, now, s) && s.proc.Punishing? && s.proc.run.pc == MainCall
    requires s.proc.run.k < |s.rows|
    ensures MemberInv(id.user, g.epoch, now, DoMainCall(now, s, s.proc.run, s.rows[s.proc.run.k], env).0)
  {
    hide MemberInv;
    Facts(id.user, g.epoch, now, s);
    DropKeeps(id.user, g.epoch, now, s);
    var run := s.proc.run;
    var r := s.rows[run.k];
    if Permission(r.decision.action) {
      PermissionCallKeeps(id, g, now, s, env);
    } else {
      MoveKeeps(id.user, g.epoch, now, s, run.(mayHaveActed := true, pc := Complete));
      assert Put(s, run.k, r) == s;
      RefusedKeeps(id.user, g.epoch, now, s, r, env.outcome);
    }
  }

  /** What a permission call may leave behind, by outcome. */
  lemma NotedInv(user: int, epoch: nat, now: int, r: Row, run: Run, o: Outcome, u: Option<int>)
    requires RowInv(user, epoch, now, r) && PunishInv(user, now, r, run)
    requires (run.pc == MainCall && Permission(r.decision.action)) || run.pc == KickBan
    ensures RowInv(user, epoch, now, Noted(r, o, u)) && Evolves(r, Noted(r, o, u))
    ensures o == Accepted && run.pc == MainCall ==>
      PunishInv(user, now, Noted(r, o, u), run.(mayHaveActed := true, pc := Complete))
    ensures o == Accepted && run.pc == KickBan ==>
      PunishInv(user, now, Noted(r, o, u), run.(mayHaveActed := true, pc := KickMark))
    ensures o == Rejected ==> Noted(r, o, u) == r
    ensures Noted(r, o, u).deleted == r.deleted && Noted(r, o, u).status == r.status
    ensures ManualActed(Noted(r, o, u)) ==> ManualActed(r)
  {
    if o == Rejected {
      assert Noted(r, o, u) == r;
    } else {
      assert Noted(r, o, u) == r.(sent := true, settled := false, until := Noted(r, o, u).until);
    }
  }

  lemma PermissionCallKeeps(id: MemberId, g: Group, now: int, s: MemberState, env: Env)
    requires MemberInv(id.user, g.epoch, now, s) && s.proc.Punishing? && s.proc.run.pc == MainCall
    requires s.proc.run.k < |s.rows| && Permission(s.rows[s.proc.run.k].decision.action)
    ensures MemberInv(id.user, g.epoch, now, DoMainCall(now, s, s.proc.run, s.rows[s.proc.run.k], env).0)
  {
    hide MemberInv, RowInv, PunishInv, Evolves, Noted, ManualActed, UntilDate;
    var run := s.proc.run;
    var r := s.rows[run.k];
    Facts(id.user, g.epoch, now, s);
    var until := UntilDate(now, run.seconds);
    NotedInv(id.user, g.epoch, now, r, run, env.outcome, until);
    if env.outcome == Accepted {
      RunKeeps(id.user, g.epoch, now, s, Noted(r, env.outcome, until), run.(mayHaveActed := true, pc := Complete));
    } else {
      RefusedKeeps(id.user, g.epoch, now, s, Noted(r, env.outcome, until), env.outcome);
    }
  }

  lemma BanCallKeeps(id: MemberId, g: Group, now: int, s: MemberState, env: Env)
    requires MemberInv(id.user, g.epoch, now, s) && s.proc.Punishing? && s.proc.run.pc == KickBan
    requires s.proc.run.k < |s.rows|
    ensures MemberInv(id.user, g.epoch, now, KickStep(s, s.proc.run, s.rows[s.proc.run.k], env).0)
  {
    hide MemberInv, RowInv, PunishInv, Evolves, Noted, ManualActed;
    var run := s.proc.run;
    var r := s.rows[run.k];
    Facts(id.user, g.epoch, now, s);
    NotedInv(id.user, g.epoch, now, r, run, env.outcome, None);
    if env.outcome == Accepted {
      RunKeeps(id.user, g.epoch, now, s, Noted(r, env.outcome, None), run.(mayHaveActed := true, pc := KickMark));
    } else {
      RefusedKeeps(id.user, g.epoch, now, s, Noted(r, env.outcome, None), env.outcome);
    }
  }

  lemma KickBanKeeps(id: MemberId, g: Group, now: int, s: MemberState, env: Env)
    requires MemberInv(id.user, g.epoch, now, s) && s.proc.Punishing? && (s.proc.run.pc == KickRead || s.proc.run.pc == KickBan)
    requires s.proc.run.k < |s.rows|
    ensures MemberInv(id.user, g.epoch, now, KickStep(s, s.proc.run, s.rows[s.proc.run.k], env).0)
  {
    hide MemberInv;
    Facts(id.user, g.epoch, now, s);
    DropKeeps(id.user, g.epoch, now, s);
    var run := s.proc.run;
    var r := s.rows[run.k];
    if run.pc == KickRead {
      MoveKeeps(id.user, g.epoch, now, s,
                if r.kickBanned then run.(mayHaveActed := true, pc := KickUnban) else run.(pc := KickBan));
    } else {
      BanCallKeeps(id, g, now, s, env);
    }
  }

  lemma KickMarkKeeps(id: MemberId, g: Group, now: int, s: MemberState, env: Env)
    requires MemberInv(id.user, g.epoch, now, s) && s.proc.Punishing? && (s.proc.run.pc == KickMark || s.proc.run.pc == KickUnban)
    requires s.proc.run.k < |s.rows|
    ensures MemberInv(id.user, g.epoch, now, KickStep(s, s.proc.run, s.rows[s.proc.run.k], env).0)
  {
    hide MemberInv;
    Facts(id.user, g.epoch, now, s);
    DropKeeps(id.user, g.epoch, now, s);
    var run := s.proc.run;
    var r := s.rows[run.k];
    if run.pc == KickMark {
      RunKeeps(id.user, g.epoch, now, s, MarkKickBanned(r), run.(pc := KickUnban));
    } else {
      MoveKeeps(id.user, g.epoch, now, s, run.(pc := KickConfirm));
    }
  }

  lemma KickConfirmKeeps(id: MemberId, g: Group, now: int, s: MemberState, env: Env)
    requires MemberInv(id.user, g.epoch, now, s) && s.proc.Punishing? && s.proc.run.pc == KickConfirm
    requires s.proc.run.k < |s.rows|
    ensures MemberInv(id.user, g.epoch, now, KickStep(s, s.proc.run, s.rows[s.proc.run.k], env).0)
  {
    hide MemberInv;
    Facts(id.user, g.epoch, now, s);
    DropKeeps(id.user, g.epoch, now, s);
    var run := s.proc.run;
    var r := s.rows[run.k];
    RunKeeps(id.user, g.epoch, now, s, r.(unbanned := true), run.(pc := Complete));
  }

  lemma BanDeleteKeeps(id: MemberId, g: Group, now: int, s: MemberState, env: Env)
    requires MemberInv(id.user, g.epoch, now, s) && s.proc.Punishing? && (s.proc.run.pc == BanDelete || s.proc.run.pc == MarkBanDeleted)
    requires s.proc.run.k < |s.rows|
    ensures MemberInv(id.user, g.epoch, now, TailStep(s, s.proc.run, s.rows[s.proc.run.k], env).0)
  {
    hide MemberInv;
    Facts(id.user, g.epoch, now, s);
    DropKeeps(id.user, g.epoch, now, s);
    var run := s.proc.run;
    var r := s.rows[run.k];
    if run.pc == BanDelete {
      MoveKeeps(id.user, g.epoch, now, s, run.(pc := MarkBanDeleted));
    } else {
      DeletedInv(id.user, g.epoch, now, r);
      RunKeeps(id.user, g.epoch, now, s, StepDeleted(r), run.(pc := Notify));
    }
  }

  lemma DoneKeeps(id: MemberId, g: Group, now: int, s: MemberState, env: Env)
    requires MemberInv(id.user, g.epoch, now, s) && s.proc.Punishing? && (s.proc.run.pc == Notify || s.proc.run.pc == MarkDone)
    requires s.proc.run.k < |s.rows|
    ensures MemberInv(id.user, g.epoch, now, TailStep(s, s.proc.run, s.rows[s.proc.run.k], env).0)
  {
    hide MemberInv;
    Facts(id.user, g.epoch, now, s);
    DropKeeps(id.user, g.epoch, now, s);
    var run := s.proc.run;
    var r := s.rows[run.k];
    if run.pc == Notify {
      MoveKeeps(id.user, g.epoch, now, s, run.(pc := MarkDone));
    } else {
      if r.status == Pending {
        EndKeeps(id.user, g.epoch, now, s, r.(status := Done));
      } else {
        EndKeeps(id.user, g.epoch, now, s, r);
      }
    }
  }

  lemma RejectKeeps(id: MemberId, g: Group, now: int, s: MemberState, env: Env)
    requires MemberInv(id.user, g.epoch, now, s) && s.proc.Punishing? && s.proc.run.pc == Reject
    requires s.proc.run.k < |s.rows|
    ensures MemberInv(id.user, g.epoch, now, TailStep(s, s.proc.run, s.rows[s.proc.run.k], env).0)
  {
    hide MemberInv;
    Facts(id.user, g.epoch, now, s);
    DropKeeps(id.user, g.epoch, now, s);
    var run := s.proc.run;
    var r := s.rows[run.k];
    EndKeeps(id.user, g.epoch, now, s, RejectPunishment(r));
  }

  lemma SenderDeleteKeeps(id: MemberId, g: Group, now: int, s: MemberState, env: Env)
    requires MemberInv(id.user, g.epoch, now, s) && s.proc.Punishing? && s.proc.run.pc == SenderDelete
    requires s.proc.run.k < |s.rows|
    ensures MemberInv(id.user, g.epoch, now, SenderStep(s, s.proc.run, s.rows[s.proc.run.k], env).0)
  {
    hide MemberInv;
    Facts(id.user, g.epoch, now, s);
    DropKeeps(id.user, g.epoch, now, s);
    MoveKeeps(id.user, g.epoch, now, s, s.proc.run.(pc := SenderMark));
  }

  lemma SenderMarked(user: int, now: int, r: Row, run: Run)
    requires PunishInv(user, now, r, run) && run.pc == SenderMark
    ensures r.decision.action == Warn ==> PunishInv(user, now, StepDeleted(r), run.(pc := SenderNotice))
    ensures PunishInv(user, now, StepDeleted(r), run.(pc := MarkDone))
  {
    if r.status == Pending {
      assert StepDeleted(r) == r.(deleted := true);
    } else {
      assert StepDeleted(r) == r;
    }
  }

  lemma SenderMarkKeeps(id: MemberId, g: Group, now: int, s: MemberState, env: Env)
    requires MemberInv(id.user, g.epoch, now, s) && s.proc.Punishing? && s.proc.run.pc == SenderMark
    requires s.proc.run.k < |s.rows|
    ensures MemberInv(id.user, g.epoch, now, SenderStep(s, s.proc.run, s.rows[s.proc.run.k], env).0)
  {
    hide MemberInv, RowInv, Evolves, ManualActed, PunishInv, StepDeleted;
    Facts(id.user, g.epoch, now, s);
    var run := s.proc.run;
    var r := s.rows[run.k];
    DeletedInv(id.user, g.epoch, now, r);
    SenderMarked(id.user, now, r, run);
    if r.decision.action == Warn && !run.acted0 {
      RunKeeps(id.user, g.epoch, now, s, StepDeleted(r), run.(pc := SenderNotice));
    } else {
      RunKeeps(id.user, g.epoch, now, s, StepDeleted(r), run.(pc := MarkDone));
    }
  }

  lemma SenderNoticeKeeps(id: MemberId, g: Group, now: int, s: MemberState, env: Env)
    requires MemberInv(id.user, g.epoch, now, s) && s.proc.Punishing? && s.proc.run.pc == SenderNotice
    requires s.proc.run.k < |s.rows|
    ensures MemberInv(id.user, g.epoch, now, SenderStep(s, s.proc.run, s.rows[s.proc.run.k], env).0)
  {
    hide MemberInv;
    Facts(id.user, g.epoch, now, s);
    DropKeeps(id.user, g.epoch, now, s);
    var run := s.proc.run;
    var r := s.rows[run.k];
    MoveKeeps(id.user, g.epoch, now, s, run.(pc := SenderAct));
  }

  lemma SenderActKeeps(id: MemberId, g: Group, now: int, s: MemberState, env: Env)
    requires MemberInv(id.user, g.epoch, now, s) && s.proc.Punishing? && s.proc.run.pc == SenderAct
    requires s.proc.run.k < |s.rows|
    ensures MemberInv(id.user, g.epoch, now, SenderStep(s, s.proc.run, s.rows[s.proc.run.k], env).0)
  {
    hide MemberInv, RowInv, PunishInv, Evolves, ManualActed;
    Facts(id.user, g.epoch, now, s);
    var run := s.proc.run;
    var r := s.rows[run.k];
    WarnedInv(id.user, g.epoch, now, r, run);
    RunKeeps(id.user, g.epoch, now, s, StepActed(r), run.(pc := MarkDone));
  }

  lemma WarnedInv(user: int, epoch: nat, now: int, r: Row, run: Run)
    requires RowInv(user, epoch, now, r) && PunishInv(user, now, r, run) && run.pc == SenderAct
    ensures RowInv(user, epoch, now, StepActed(r)) && Evolves(r, StepActed(r))
    ensures ManualActed(StepActed(r)) ==> ManualActed(r)
    ensures PunishInv(user, now, StepActed(r), run.(pc := MarkDone)) == true
  {
    if r.status == Pending {
      assert StepActed(r) == r.(acted := true);
    } else {
      assert StepActed(r) == r;
    }
  }

  // ---------------------------------------------------------------- many sessions change

  /** A session kept, or moved forward without being completed or verified. */
  predicate Narrowed(v: Session, v': Session) {
    v' == v
    || (v' == v.(status := v'.status) && (Active(v') ==> Active(v))
        && v'.status != VPending && v'.status != Completing && v'.status != Verified)
  }

  lemma NarrowKeeps(now: int, rows: seq<Row>, ss: seq<Session>, ss': seq<Session>)
    requires SessionsInv(now, ss) && OwnInv(rows, ss) && |ss'| == |ss|
    requires forall t :: 0 <= t < |ss| ==> Narrowed(ss[t], ss'[t])
    ensures SessionsInv(now, ss') && OwnInv(rows, ss')
  {
    forall t | 0 <= t < |ss'| ensures SessionInv(now, ss'[t]) {
      assert Narrowed(ss[t], ss'[t]) && SessionInv(now, ss[t]);
      assert WrongEvents(ss'[t]) == WrongEvents(ss[t]);
    }
    forall t, u | 0 <= t < u < |ss'| ensures !(Active(ss'[t]) && Active(ss'[u])) {
      assert Narrowed(ss[t], ss'[t]) && Narrowed(ss[u], ss'[u]);
    }
    forall t | 0 <= t < |ss'| && ss'[t].own && ss'[t].status == Verified ensures SelfUnmuteDone(rows, t) {
      assert Narrowed(ss[t], ss'[t]);
    }
  }

  // ---------------------------------------------------------------- CompleteTakeover

  lemma SkippedInv(user: int, epoch: nat, now: int, r: Row)
    requires RowInv(user, epoch, now, r)
    ensures RowInv(user, epoch, now, StepSkipped(r)) && Evolves(r, StepSkipped(r))
  {
    if r.status == Pending {
      assert StepSkipped(r) == r.(status := Skipped);
    } else {
      assert StepSkipped(r) == r;
    }
  }

  lemma ActedInv(user: int, epoch: nat, now: int, r: Row, run: Run)
    requires RowInv(user, epoch, now, r) && PunishInv(user, now, r, run) && run.pc == Complete
    ensures RowInv(user, epoch, now, StepActed(r)) && Evolves(r, StepActed(r))
    ensures r.status == Pending ==>
      PunishInv(user, now, StepActed(r), run.(pc := AfterAction(run, StepActed(r))))
  {
    if r.status == Pending {
      assert StepActed(r) == r.(acted := true);
    } else {
      assert StepActed(r) == r;
    }
  }

  lemma TakeoverKeepsRows(user: int, epoch: nat, now: int, rows: seq<Row>, k: nat)
    requires RowsInv(user, epoch, now, rows) && k < |rows|
    requires RowInv(user, epoch, now, StepActed(rows[k])) && Evolves(rows[k], StepActed(rows[k]))
    ensures var acted := rows[k := StepActed(rows[k])];
      var rows' := if rows[k].source == Manual then SkipOlder(acted, k) else acted;
      RowsInv(user, epoch, now, rows') && forall i :: 0 <= i < |rows| ==> Evolves(rows[i], rows'[i])
  {
    var acted := rows[k := StepActed(rows[k])];
    var rows' := if rows[k].source == Manual then SkipOlder(acted, k) else acted;
    forall i | 0 <= i < |rows|
      ensures RowInv(user, epoch, now, rows'[i]) && Evolves(rows[i], rows'[i])
      ensures rows'[i].createdAt == rows[i].createdAt && rows'[i].key == rows[i].key
    {
      SkippedInv(user, epoch, now, rows[i]);
    }
    forall i, j | 0 <= i < j < |rows'| && ManualActed(rows'[j])
      ensures rows'[i].status != Pending
    {
      if j != k || rows[k].source != Manual {
        assert ManualActed(rows[j]);
        assert rows[i].status != Pending;
      }
    }
  }

  lemma CompleteKeeps(id: MemberId, g: Group, now: int, s: MemberState, env: Env)
    requires MemberInv(id.user, g.epoch, now, s) && s.proc.Punishing? && s.proc.run.pc == Complete
    requires s.proc.run.k < |s.rows|
    ensures MemberInv(id.user, g.epoch, now, DoComplete(g, s, s.proc.run, s.rows[s.proc.run.k]))
  {
    var run := s.proc.run;
    var r := s.rows[run.k];
    var next := run.(pc := AfterAction(run, r));
    if Permission(r.decision.action) {
      if AuthorityHolds(g, r) {
        TakeoverCommits(id, g, now, s);
      } else {
        DropKeeps(id.user, g.epoch, now, s);
      }
    } else {
      hide MemberInv;
      Facts(id.user, g.epoch, now, s);
      RunKeeps(id.user, g.epoch, now, s, StepActed(r), next);
    }
  }

  lemma TakeoverRun(user: int, epoch: nat, now: int, rows: seq<Row>, rows': seq<Row>, run: Run)
    requires RunInv(user, now, rows, run) && run.pc == Complete && RowInv(user, epoch, now, rows[run.k])
    requires rows[run.k].status == Pending && |rows'| == |rows| && rows'[run.k] == StepActed(rows[run.k])
    requires forall j :: run.k < j < |rows| ==> rows'[j] == rows[j]
    ensures RunInv(user, now, rows', run.(pc := AfterAction(run, rows[run.k])))
  {
    ActedInv(user, epoch, now, rows[run.k], run);
  }

  lemma TakeoverCaller(ss: seq<Session>, run: Run, r: Row)
    requires CallerInv(ss, run.caller, r.key)
    requires r.key.SelfUnmute? ==> r.decision.reason == SelfVerification
    ensures CallerInv(CancelAllBut(ss, Requester(r)), run.caller, r.key)
  {
  }

  lemma TakeoverRows(g: Group, rows: seq<Row>, sessions: seq<Session>, k: nat)
    requires k < |rows|
    ensures CompleteTakeover(g, rows, sessions, k).Some? ==>
      var rows' := CompleteTakeover(g, rows, sessions, k).value.0;
      |rows'| == |rows| && rows'[k] == StepActed(rows[k]) && forall j :: k < j < |rows'| ==> rows'[j] == rows[j]
  {
    hide StepActed, AuthorityHolds, CancelAllBut;
  }

  lemma TakeoverCommits(id: MemberId, g: Group, now: int, s: MemberState)
    requires MemberInv(id.user, g.epoch, now, s) && s.proc.Punishing? && s.proc.run.pc == Complete
    requires s.proc.run.k < |s.rows|
    requires AuthorityHolds(g, s.rows[s.proc.run.k]) && Permission(s.rows[s.proc.run.k].decision.action)
    ensures MemberInv(id.user, g.epoch, now, DoComplete(g, s, s.proc.run, s.rows[s.proc.run.k]))
  {
    hide MemberInv, RowsInv, RowInv, SessionsInv, OwnInv, RunInv, CallerInv, StepActed, PunishInv;
    Facts(id.user, g.epoch, now, s);
    Parts(id.user, g.epoch, now, s);
    var run := s.proc.run;
    var r := s.rows[run.k];
    ActedInv(id.user, g.epoch, now, r, run);
    var (rows', sessions') := CompleteTakeover(g, s.rows, s.sessions, run.k).value;
    TakeoverKeepsRows(id.user, g.epoch, now, s.rows, run.k);
    TakeoverRows(g, s.rows, s.sessions, run.k);
    TakeoverRun(id.user, g.epoch, now, s.rows, rows', run);
    NarrowKeeps(now, s.rows, s.sessions, sessions');
    OwnStays(s.rows, rows', sessions');
    TakeoverCaller(s.sessions, run, r);
    Whole(id.user, g.epoch, now, s, DoComplete(g, s, run, r));
  }

  lemma PunishKeeps(id: MemberId, g: Group, now: int, s: MemberState, env: Env)
    requires MemberInv(id.user, g.epoch, now, s) && s.proc.Punishing?
    ensures MemberInv(id.user, g.epoch, now, PunishStep(id, g, now, s, env).0)
  {
    hide MemberInv, PreflightStep, DeleteStep, StartStep, DoMainCall, KickStep, DoComplete, TailStep, SenderStep;
    Facts(id.user, g.epoch, now, s);
    match s.proc.run.pc {
      case AddWorkflow => AddWorkflowKeeps(id, g, now, s, env);
      case ReadRow => ReadRowKeeps(id, g, now, s, env);
      case Preflight | CheckNewer | MarkSkipped => PreflightKeeps(id, g, now, s, env);
      case PreDelete | MarkPreDeleted => PreDeleteKeeps(id, g, now, s, env);
      case StartCall => StartCallKeeps(id, g, now, s, env);
      case CheckDeadline | MarkFailed => DeadlineKeeps(id, g, now, s, env);
      case MainCall => MainCallKeeps(id, g, now, s, env);
      case KickRead | KickBan => KickBanKeeps(id, g, now, s, env);
      case KickMark | KickUnban => KickMarkKeeps(id, g, now, s, env);
      case KickConfirm => KickConfirmKeeps(id, g, now, s, env);
      case Complete => CompleteKeeps(id, g, now, s, env);
      case BanDelete | MarkBanDeleted => BanDeleteKeeps(id, g, now, s, env);
      case Notify | MarkDone => DoneKeeps(id, g, now, s, env);
      case Reject => RejectKeeps(id, g, now, s, env);
      case SenderDelete => SenderDeleteKeeps(id, g, now, s, env);
      case SenderMark => SenderMarkKeeps(id, g, now, s, env);
      case SenderNotice => SenderNoticeKeeps(id, g, now, s, env);
      case SenderAct => SenderActKeeps(id, g, now, s, env);
    }
  }
}
