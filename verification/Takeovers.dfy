/** Permission calls of one member never cross workflows. */
module Takeovers {
  import opened Domain
  import opened Tables
  import opened Machine
  import opened Invariant
  import opened Preservation
  import opened Evolution
  import opened Effects
  import opened World
  import opened Runs

  /** What counts as newer than a punishment, for its own program, for its release and for
      the member's verification, by the order of the ids. */
  lemma WhatIsNewer(w: World, id: MemberId, k: nat)
    requires Reachable(w) && k < |RowsOf(w, id)|
    ensures var (rows, sessions) := (RowsOf(w, id), SessionsOf(w, id));
      && (NewerManual(rows, rows[k].createdAt) <==> LaterManual(rows, k))
      && (NewerPermission(rows, sessions, rows[k].createdAt) <==>
            LaterPermission(rows, k) || OpenedSince(sessions, rows[k].createdAt))
      && (TakenOver(rows) <==>
            exists i :: 0 <= i < |rows| && rows[i].status == Pending
                        && rows[i].decision.action in {Mute, Ban, Kick, Unmute})
  {
    hide Inv, NewerManual, NewerPermission, LaterManual, LaterPermission, OpenedSince;
    ReachableInv(w);
    RowsAscend(w, id);
    ManualByIds(RowsOf(w, id), k);
    PermissionByIds(RowsOf(w, id), SessionsOf(w, id), k);
  }

  /** A manual mute, ban, kick, unmute or unban with a greater id is done. */
  predicate LaterManual(rows: seq<Row>, k: nat) {
    exists i :: k < i < |rows| && rows[i].source == Manual && rows[i].status == Done
                && rows[i].decision.action in {Mute, Ban, Kick, Unmute, Unban}
  }

  /** A mute, ban, kick, unmute or unban with a greater id was started and has not failed. */
  predicate LaterPermission(rows: seq<Row>, k: nat) {
    exists i :: k < i < |rows| && rows[i].started && rows[i].status != Failed
                && rows[i].decision.action in {Mute, Ban, Kick, Unmute, Unban}
  }

  predicate OpenedSince(sessions: seq<Session>, at: int) {
    exists t :: 0 <= t < |sessions| && sessions[t].createdAt > at
                && sessions[t].status in {VPending, Completing, Expiring, Releasing}
  }

  ghost predicate ByIds(rows: seq<Row>) {
    && (forall i, j :: 0 <= i < j < |rows| ==> rows[i].createdAt < rows[j].createdAt)
    && (forall i :: 0 <= i < |rows| && rows[i].started ==> rows[i].workflow)
  }

  lemma RowsAscend(w: World, id: MemberId)
    requires Inv(w)
    ensures ByIds(RowsOf(w, id))
  {
  }

  lemma ManualByIds(rows: seq<Row>, k: nat)
    requires k < |rows| && ByIds(rows)
    ensures NewerManual(rows, rows[k].createdAt) <==> LaterManual(rows, k)
  {
    assert forall i :: 0 <= i < |rows| ==> (rows[i].createdAt > rows[k].createdAt <==> k < i);
  }

  lemma PermissionByIds(rows: seq<Row>, sessions: seq<Session>, k: nat)
    requires k < |rows| && ByIds(rows)
    ensures NewerPermission(rows, sessions, rows[k].createdAt) <==>
            LaterPermission(rows, k) || OpenedSince(sessions, rows[k].createdAt)
  {
    assert forall i :: 0 <= i < |rows| ==> (rows[i].createdAt > rows[k].createdAt <==> k < i);
  }

  /** A verification program sends a permission call only while no mute, ban, kick or
      unmute of the member is pending, and only for a session that is still open. */
  lemma SessionCallsYield(w: World, m: Move, id: MemberId, t: nat, c: Call, o: Outcome)
    requires Reachable(w) && EffectOn(w, m, id) == Sent(FromSession(t), c, o)
    ensures forall i :: 0 <= i < |RowsOf(w, id)| && Takeover(RowsOf(w, id)[i].decision.action) ==>
      RowsOf(w, id)[i].status != Pending
    ensures t < |SessionsOf(w, id)| && Active(SessionsOf(w, id)[t])
  {
    ReachableInv(w);
    ApplyEffect(w, m, id);
  }

  /** The move that marks a permission action as carried out is its commit. */
  lemma CommitMove(w: World, m: Move, id: MemberId, k: nat)
    requires Inv(w) && k < |RowsOf(w, id)| && Permission(RowsOf(w, id)[k].decision.action)
    requires !RowsOf(w, id)[k].acted && k < |RowsOf(Apply(w, m), id)| && RowsOf(Apply(w, m), id)[k].acted
    ensures AuthorityHolds(GroupOf(w, id.chat), RowsOf(w, id)[k])
    ensures CompleteTakeover(GroupOf(w, id.chat), RowsOf(w, id), SessionsOf(w, id), k)
              == Some((RowsOf(Apply(w, m), id), SessionsOf(Apply(w, m), id)))
  {
    hide Inv;
    ApplySteps(w, m, id);
    StepEvolves(w, m, id, k);
    assert CommitsIn(w, m, id, k);
    var s := MemberOf(w, id);
    var g := GroupOf(w, id.chat);
    assert Next(id, g, w.now, s, m.l).0 == DoComplete(g, s, s.proc.run, s.rows[k]);
  }

  /** What that commit does, row by row and session by session: it marks the action as carried
      out; a manual one ends all older work that was pending; and all but an unban cancel every
      open session other than the one that asked for it. */
  lemma CommitDoes(w: World, m: Move, id: MemberId, k: nat)
    requires Reachable(w) && k < |RowsOf(w, id)| && Permission(RowsOf(w, id)[k].decision.action)
    requires !RowsOf(w, id)[k].acted && k < |RowsOf(Apply(w, m), id)| && RowsOf(Apply(w, m), id)[k].acted
    ensures var (rows, rows') := (RowsOf(w, id), RowsOf(Apply(w, m), id));
      && |rows'| == |rows|
      && forall i :: 0 <= i < |rows| ==>
           rows'[i] == if i == k then rows[i].(acted := true)
                       else if i < k && rows[k].source == Manual && rows[i].status == Pending
                       then rows[i].(status := Skipped) else rows[i]
    ensures var (vs, vs') := (SessionsOf(w, id), SessionsOf(Apply(w, m), id));
      && |vs'| == |vs|
      && forall t :: 0 <= t < |vs| ==>
           vs'[t] == if RowsOf(w, id)[k].decision.action in {Mute, Ban, Kick, Unmute}
                        && vs[t].status in {VPending, Completing, Expiring, Releasing}
                        && RowsOf(w, id)[k].key != SelfUnmute(t)
                     then vs[t].(status := Cancelled) else vs[t]
  {
    hide Inv, Apply, Next, Reachable, CompleteTakeover;
    ReachableInv(w);
    CommitMove(w, m, id, k);
    if RowsOf(w, id)[k].key.SelfUnmute? {
      KeyOfSelf(w, id, k);
    }
    var g := GroupOf(w, id.chat);
    CommitLengths(g, RowsOf(w, id), SessionsOf(w, id), k);
    forall i | 0 <= i < |RowsOf(w, id)| {
      CommitToRow(g, RowsOf(w, id), SessionsOf(w, id), k, i);
    }
    forall t | 0 <= t < |SessionsOf(w, id)| {
      CommitToSession(g, RowsOf(w, id), SessionsOf(w, id), k, t);
    }
  }

  lemma CommitLengths(g: Group, rows: seq<Row>, sessions: seq<Session>, k: nat)
    requires k < |rows| && CompleteTakeover(g, rows, sessions, k).Some?
    ensures var (rows', sessions') := CompleteTakeover(g, rows, sessions, k).value;
      |rows'| == |rows| && |sessions'| == |sessions|
  {
    hide StepActed, StepSkipped, AuthorityHolds;
  }

  lemma CommitToRow(g: Group, rows: seq<Row>, sessions: seq<Session>, k: nat, i: nat)
    requires k < |rows| && CompleteTakeover(g, rows, sessions, k).Some? && i < |rows|
    ensures var rows' := CompleteTakeover(g, rows, sessions, k).value.0;
      i < |rows'|
      && rows'[i] == if i == k then rows[i].(acted := true)
                     else if i < k && rows[k].source == Manual && rows[i].status == Pending
                     then rows[i].(status := Skipped) else rows[i]
  {
    hide StepActed, StepSkipped, AuthorityHolds;
    AuthorityIsPending(g, rows[k]);
    ActedRow(rows[k]);
    SkippedRow(rows[i]);
  }

  lemma CommitToSession(g: Group, rows: seq<Row>, sessions: seq<Session>, k: nat, t: nat)
    requires k < |rows| && CompleteTakeover(g, rows, sessions, k).Some? && t < |sessions|
    requires Permission(rows[k].decision.action)
    requires rows[k].key.SelfUnmute? ==> rows[k].decision.reason == SelfVerification
    ensures var sessions' := CompleteTakeover(g, rows, sessions, k).value.1;
      t < |sessions'|
      && sessions'[t] == if rows[k].decision.action in {Mute, Ban, Kick, Unmute}
                            && sessions[t].status in {VPending, Completing, Expiring, Releasing}
                            && rows[k].key != SelfUnmute(t)
                         then sessions[t].(status := Cancelled) else sessions[t]
  {
    hide StepActed, SkipOlder, AuthorityHolds;
  }

  lemma KeyOfSelf(w: World, id: MemberId, k: nat)
    requires Inv(w) && k < |RowsOf(w, id)| && RowsOf(w, id)[k].key.SelfUnmute?
    ensures RowsOf(w, id)[k].decision.reason == SelfVerification
  {
  }

  lemma ActedRow(r: Row)
    ensures StepActed(r) == if r.status == Pending then r.(acted := true) else r
  {
  }

  lemma SkippedRow(r: Row)
    ensures StepSkipped(r) == if r.status == Pending then r.(status := Skipped) else r
  {
  }

  lemma AuthorityIsPending(g: Group, r: Row)
    requires AuthorityHolds(g, r)
    ensures r.status == Pending
  {
  }

  /** Once a mute, ban, kick or unmute commits, every session open at that moment,
      except the self session that asked for it, is cancelled and stays so, and no
      call is ever sent for it again. */
  lemma TakeoverSilencesSessions(w: World, m: Move, id: MemberId, k: nat, t: nat, ms: seq<Move>, m': Move)
    requires Reachable(w) && k < |RowsOf(w, id)| && Takeover(RowsOf(w, id)[k].decision.action)
    requires !RowsOf(w, id)[k].acted && k < |RowsOf(Apply(w, m), id)| && RowsOf(Apply(w, m), id)[k].acted
    requires t < |SessionsOf(w, id)| && Active(SessionsOf(w, id)[t])
    requires RowsOf(w, id)[k].key != SelfUnmute(t)
    ensures var w' := Exec(Apply(w, m), ms);
      && t < |SessionsOf(w', id)| && SessionsOf(w', id)[t].status == Cancelled
      && !(EffectOn(w', m', id).Sent? && EffectOn(w', m', id).origin == FromSession(t))
  {
    hide Inv, Apply, Next, SessionEvolves;
    ReachableInv(w);
    CommitCancels(w, m, id, k, t);
    var w1 := Apply(w, m);
    ApplyKeeps(w, m);
    SessionsEvolve(w1, ms, id, t);
    ExecKeeps(w1, ms);
    ApplyEffect(Exec(w1, ms), m', id);
    CancelledForGood(SessionsOf(w1, id)[t], SessionsOf(Exec(w1, ms), id)[t]);
  }

  lemma CommitCancels(w: World, m: Move, id: MemberId, k: nat, t: nat)
    requires Inv(w) && k < |RowsOf(w, id)| && Takeover(RowsOf(w, id)[k].decision.action)
    requires !RowsOf(w, id)[k].acted && k < |RowsOf(Apply(w, m), id)| && RowsOf(Apply(w, m), id)[k].acted
    requires t < |SessionsOf(w, id)| && Active(SessionsOf(w, id)[t])
    requires RowsOf(w, id)[k].key != SelfUnmute(t)
    ensures t < |SessionsOf(Apply(w, m), id)| && SessionsOf(Apply(w, m), id)[t].status == Cancelled
  {
    hide Inv, Apply, Next, SkipOlder, StepActed, AuthorityHolds;
    CommitMove(w, m, id, k);
  }

  lemma CancelledForGood(v: Session, v': Session)
    requires v.status == Cancelled && SessionEvolves(v, v')
    ensures v'.status == Cancelled && !Active(v')
  {
  }

  // ---------------------------------------------------------------- manual actions win

  lemma ManualActedRow(w: World, id: MemberId, j: nat)
    requires Inv(w) && j < |RowsOf(w, id)| && ManualActed(RowsOf(w, id)[j])
    ensures StartedPermission(RowsOf(w, id)[j])
    ensures forall i :: 0 <= i < j ==> RowsOf(w, id)[i].status != Pending
    ensures forall i :: 0 <= i < j ==> RowsOf(w, id)[i].createdAt < RowsOf(w, id)[j].createdAt
  {
    RowFacts(w, id, j);
  }

  /** Once a manual mute, ban, kick, unmute or unban has committed, no punishment of
      the member with a smaller id is pending, none of them sends anything again, and
      no release task of one of them restores or unbans. */
  lemma ManualSilencesOlder(w: World, id: MemberId, j: nat, i: nat, ms: seq<Move>, m: Move)
    requires Reachable(w) && j < |RowsOf(w, id)| && ManualActed(RowsOf(w, id)[j]) && i < j
    ensures var w' := Exec(w, ms);
      && i < |RowsOf(w', id)| && RowsOf(w', id)[i].status != Pending
      && !(EffectOn(w', m, id).Sent?
           && (EffectOn(w', m, id).origin == FromPunishment(i) || EffectOn(w', m, id).origin == FromRelease(i)))
  {
    hide Inv, Apply, Next;
    ReachableInv(w);
    var w' := Exec(w, ms);
    ExecKeeps(w, ms);
    RowsEvolve(w, ms, id, j);
    ManualActedRow(w', id, j);
    ApplyEffect(w', m, id);
  }
}
