/** What a Telegram call implies about the state it was sent from. */
module Effects {
  import opened Domain
  import opened Tables
  import opened Machine
  import opened Invariant
  import opened Preservation
  import opened StepSafety
  import opened Evolution

  /** The permission calls that carry an action out: one, and for a kick two. */
  predicate Fits(a: Action, c: Call) {
    match a
    case Mute => c == Restrict
    case Ban => c == BanMember
    case Kick => c == BanMember || c == UnbanMember
    case Unmute => c == Restore
    case Unban => c == UnbanMember
    case _ => false
  }

  /** A call of a punishment: the program is past its snapshot, so no later manual
      action of the member has taken over. */
  ghost predicate FromPunishmentSound(s: MemberState, s': MemberState, k: nat, c: Call, o: Outcome) {
    && s.proc.Punishing? && s.proc.run.k == k && PastRead(s.proc.run.pc)
    && k < |s.rows| && |s'.rows| == |s.rows|
    && (forall j :: k < j < |s.rows| ==> !ManualActed(s.rows[j]))
    && (PermissionCall(c) ==>
          && s.rows[k].started && Fits(s.rows[k].decision.action, c)
          && (TimedMute(s.rows[k].decision) ==> s.rows[k].releaseNeeded)
          && (o != Rejected ==> s'.rows[k].sent)
          && (o != Rejected && (c == Restrict || c == BanMember) ==> !s'.rows[k].settled)
          && (s.rows[k].decision.action == Kick ==> (c == BanMember <==> !s.rows[k].kickBanned)))
  }

  /** A call of a verification program: no permission punishment of the member is
      pending and the session is open. */
  ghost predicate FromSessionSound(s: MemberState, t: nat, c: Call) {
    && !TakenOver(s.rows) && t < |s.sessions| && Active(s.sessions[t]) && PermissionCall(c)
  }

  /** A call of a release task: nothing newer holds, and it undoes the row's restriction. */
  ghost predicate FromReleaseSound(s: MemberState, k: nat, c: Call) {
    && k < |s.rows| && !NewerPermission(s.rows, s.sessions, s.rows[k].createdAt)
    && s.proc == ReleasingRow(k, ReleaseCall)
    && Undoes(s.rows[k].decision.action, c)
  }

  /** Only mutes, bans and kicks are ever released: a mute by restoring the member, the
      others by an unban. */
  predicate Undoes(a: Action, c: Call) {
    (a == Mute && c == Restore) || ((a == Ban || a == Kick) && c == UnbanMember)
  }

  ghost predicate EffectSound(s: MemberState, s': MemberState, e: Effect) {
    match e
    case Quiet => true
    case Sent(FromPunishment(k), c, o) => FromPunishmentSound(s, s', k, c, o)
    case Sent(FromSession(t), c, o) => FromSessionSound(s, t, c)
    case Sent(FromRelease(k), c, o) => FromReleaseSound(s, k, c)
  }

  /** The facts about the running punishment that its calls rely on. */
  lemma RunFacts(user: int, epoch: nat, now: int, s: MemberState)
    requires MemberInv(user, epoch, now, s) && s.proc.Punishing?
    ensures s.proc.run.k < |s.rows|
    ensures PastRead(s.proc.run.pc) ==> forall j :: s.proc.run.k < j < |s.rows| ==> !ManualActed(s.rows[j])
  {
  }

  lemma PunishEffect(id: MemberId, g: Group, now: int, s: MemberState, env: Env)
    requires MemberInv(id.user, g.epoch, now, s) && s.proc.Punishing?
    ensures EffectSound(s, PunishStep(id, g, now, s, env).0, PunishStep(id, g, now, s, env).1)
  {
    hide MemberInv, RowInv, PreflightStep, StartStep, DoComplete, DoMainCall, KickStep, StepDeleted, StepActed, StepDone,
         RejectPunishment, AfterAction, NewerManual, Return, Approach, AfterSenderDelete;
    RunFacts(id.user, g.epoch, now, s);
    if s.proc.run.pc == MainCall {
      MainEffect(id.user, g.epoch, now, s, env);
    }
    KickEffect(id.user, g.epoch, now, s, env);
  }

  lemma MainEffect(user: int, epoch: nat, now: int, s: MemberState, env: Env)
    requires MemberInv(user, epoch, now, s) && s.proc.Punishing? && s.proc.run.pc == MainCall
    ensures s.proc.run.k < |s.rows|
    ensures var (t, e) := DoMainCall(now, s, s.proc.run, s.rows[s.proc.run.k], env); EffectSound(s, t, e)
  {
    hide MemberInv, RowInv;
    Facts(user, epoch, now, s);
    RunFacts(user, epoch, now, s);
  }

  lemma KickEffect(user: int, epoch: nat, now: int, s: MemberState, env: Env)
    requires MemberInv(user, epoch, now, s) && s.proc.Punishing?
    ensures s.proc.run.k < |s.rows|
    ensures var (t, e) := KickStep(s, s.proc.run, s.rows[s.proc.run.k], env); EffectSound(s, t, e)
  {
    hide MemberInv, RowInv;
    Facts(user, epoch, now, s);
    RunFacts(user, epoch, now, s);
    KickedSent(user, epoch, now, s.rows[s.proc.run.k]);
  }

  lemma KickedSent(user: int, epoch: nat, now: int, r: Row)
    requires RowInv(user, epoch, now, r)
    ensures r.kickBanned ==> r.sent && r.decision.action == Kick
  {
  }

  lemma SessionEffect(user: int, g: Group, now: int, s: MemberState, env: Env)
    requires MemberInv(user, g.epoch, now, s) && s.proc.Finishing?
    ensures EffectSound(s, FinishStep(g, s, now, env).0, FinishStep(g, s, now, env).1)
  {
  }

  lemma OtherEffect(id: MemberId, g: Group, now: int, s: MemberState, env: Env)
    requires MemberInv(id.user, g.epoch, now, s) && !s.proc.Punishing? && !s.proc.Finishing?
    ensures EffectSound(s, Continue(id, g, now, s, env).0, Continue(id, g, now, s, env).1)
  {
  }

  lemma NextEffect(id: MemberId, g: Group, now: int, s: MemberState, l: Label)
    requires MemberInv(id.user, g.epoch, now, s)
    ensures EffectSound(s, Next(id, g, now, s, l).0, Next(id, g, now, s, l).1)
  {
    hide MemberInv, EffectSound;
    match l {
      case Go(env) =>
        if s.proc.Punishing? {
          PunishEffect(id, g, now, s, env);
        } else if s.proc.Finishing? {
          SessionEffect(id.user, g, now, s, env);
        } else {
          OtherEffect(id, g, now, s, env);
        }
      case _ => QuietSound(s, Next(id, g, now, s, l).0);
    }
  }

  lemma QuietSound(s: MemberState, s': MemberState)
    ensures EffectSound(s, s', Quiet)
  {
  }

  /** A release ends as `Restored` only through an acknowledged call, and as
      `Superseded` only when something newer holds. */
  lemma ReleaseResults(id: MemberId, g: Group, now: int, s: MemberState, l: Label, k: nat)
    requires s.proc.ReleasingRow? && s.proc.row == k < |s.rows|
    ensures var (s', e) := Next(id, g, now, s, l);
      && (s'.proc == ReleasingRow(k, RecordRelease(Restored)) && s.proc != s'.proc ==>
            e == Sent(FromRelease(k), if s.rows[k].decision.action == Mute then Restore else UnbanMember, Accepted))
      && (s'.proc == ReleasingRow(k, RecordRelease(Superseded)) && s.proc != s'.proc ==>
            NewerPermission(s.rows, s.sessions, s.rows[k].createdAt))
  {
  }
}
