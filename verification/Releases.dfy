/** A restriction that ends by itself is released, and nothing newer is lifted. */
module Releases {
  import opened Domain
  import opened Tables
  import opened Machine
  import opened Invariant
  import opened Preservation
  import opened Evolution
  import opened Effects
  import opened World
  import opened Runs

  /** A permission call that was not definitely rejected is remembered; a restriction
      that the bot must lift itself then has a stored release. */
  lemma CallIsOwed(w: World, m: Move, id: MemberId, k: nat, c: Call, o: Outcome)
    requires Reachable(w) && EffectOn(w, m, id) == Sent(FromPunishment(k), c, o)
    requires (c == Restrict || c == BanMember) && o != Rejected
    requires k < |RowsOf(w, id)| && (TimedMute(RowsOf(w, id)[k].decision) || RowsOf(w, id)[k].revoked)
    ensures k < |RowsOf(Apply(w, m), id)| && Owes(RowsOf(Apply(w, m), id)[k])
  {
    ReachableInv(w);
    ApplyEffect(w, m, id);
    ApplySteps(w, m, id);
    StepEvolves(w, m, id, k);
  }

  lemma {:induction false} OwedUntilSettled(w: World, ms: seq<Move>, id: MemberId, k: nat)
    requires Inv(w) && k < |RowsOf(w, id)| && Owes(RowsOf(w, id)[k])
    ensures k < |RowsOf(Exec(w, ms), id)|
    ensures Owes(RowsOf(Exec(w, ms), id)[k])
            || exists i :: 0 <= i < |ms| && SettlesIn(Before(w, ms, i), ms[i], id, k)
    decreases |ms|
  {
    hide Inv, Apply, SettlesIn;
    if ms != [] {
      RowsEvolve(w, ms, id, k);
      ApplyKeeps(w, ms[0]);
      ApplySteps(w, ms[0], id);
      StepEvolves(w, ms[0], id, k);
      var w1 := Apply(w, ms[0]);
      if SettlesIn(w, ms[0], id, k) {
        assert Before(w, ms, 0) == w;
      } else {
        OwedUntilSettled(w1, ms[1..], id, k);
        if !Owes(RowsOf(Exec(w, ms), id)[k]) {
          var i :| 0 <= i < |ms[1..]| && SettlesIn(Before(w1, ms[1..], i), ms[1..][i], id, k);
          assert ms[..i + 1][0] == ms[0] && ms[..i + 1][1..] == ms[1..][..i];
          assert Before(w, ms, i + 1) == Before(w1, ms[1..], i);
        }
      }
    }
  }

  /** A timed mute whose restrict call was sent and not definitely rejected keeps its
      release task, with a due time, through every later move, until a release step
      of that row has restored the member or found something newer. */
  lemma MuteReleaseIsDurable(w: World, m: Move, id: MemberId, k: nat, o: Outcome, ms: seq<Move>)
    requires Reachable(w) && EffectOn(w, m, id) == Sent(FromPunishment(k), Restrict, o) && o != Rejected
    requires k < |RowsOf(w, id)| && TimedMute(RowsOf(w, id)[k].decision)
    ensures var w1 := Apply(w, m);
      && k < |RowsOf(Exec(w1, ms), id)|
      && (var r := RowsOf(Exec(w1, ms), id)[k];
          (r.releaseNeeded && r.releaseAt.Some?)
          || exists i :: 0 <= i < |ms| && SettlesIn(Before(w1, ms, i), ms[i], id, k))
  {
    ReachableInv(w);
    CallIsOwed(w, m, id, k, Restrict, o);
    ApplyKeeps(w, m);
    OwedUntilSettled(Apply(w, m), ms, id, k);
    ExecKeeps(Apply(w, m), ms);
    RowFacts(Exec(Apply(w, m), ms), id, k);
  }

  /** Move i of the run is the acknowledged call that undoes row k, and ever since the member's
      lock holder has been waiting to record it: no other call for the member came after. */
  ghost predicate JustReleased(w: World, ms: seq<Move>, id: MemberId, k: nat, i: nat)
    requires i < |ms|
  {
    && k < |RowsOf(Before(w, ms, i), id)|
    && (var a := RowsOf(Before(w, ms, i), id)[k].decision.action;
        && (a == Mute || a == Ban || a == Kick)
        && EffectOn(Before(w, ms, i), ms[i], id) == Sent(FromRelease(k), if a == Mute then Restore else UnbanMember, Accepted))
    && (forall j :: i < j < |ms| ==>
          MemberOf(Before(w, ms, j), id).proc == ReleasingRow(k, RecordRelease(Restored))
          && EffectOn(Before(w, ms, j), ms[j], id) == Quiet)
  }

  lemma Extends(w: World, ms: seq<Move>, m: Move, i: nat)
    requires i <= |ms|
    ensures Before(w, ms + [m], i) == Before(w, ms, i)
  {
    assert (ms + [m])[..i] == ms[..i];
  }

  lemma WaitingIsQuiet(u: World, m: Move, id: MemberId, k: nat)
    requires MemberOf(u, id).proc == ReleasingRow(k, RecordRelease(Restored))
    requires MemberOf(Apply(u, m), id).proc == ReleasingRow(k, RecordRelease(Restored))
    ensures EffectOn(u, m, id) == Quiet
  {
    hide PunishStep;
  }

  /** A release is recorded as `Restored` by the very program whose call Telegram has just
      acknowledged: between that call and the record nothing was sent for the member. */
  lemma {:induction false} RestoredMeansAcknowledged(w: World, ms: seq<Move>, id: MemberId, k: nat) returns (i: nat)
    requires Inv(w) && w.members == map[]
    requires MemberOf(Exec(w, ms), id).proc == ReleasingRow(k, RecordRelease(Restored))
    ensures i < |ms| && JustReleased(w, ms, id, k, i)
    decreases |ms|
  {
    hide Inv, Next, Apply, EffectOn;
    assert Exec(w, []) == w;
    var pre, m := ms[..|ms| - 1], ms[|ms| - 1];
    assert ms == pre + [m];
    ExecAppend(w, pre, m);
    ExecKeeps(w, pre);
    var u := Exec(w, pre);
    assert pre[..|pre|] == pre;
    forall j | 0 <= j <= |pre| ensures Before(w, ms, j) == Before(w, pre, j) {
      Extends(w, pre, m, j);
    }
    if MemberOf(u, id).proc == ReleasingRow(k, RecordRelease(Restored)) {
      i := RestoredMeansAcknowledged(w, pre, id, k);
      WaitingIsQuiet(u, m, id, k);
    } else {
      InvOfMember(u, id);
      RestoredArises(id, GroupOf(u, id.chat), u.now, MemberOf(u, id), m, u, k);
      i := |pre|;
    }
  }

  lemma RestoredArises(id: MemberId, g: Group, now: int, s: MemberState, m: Move, u: World, k: nat)
    requires MemberInv(id.user, g.epoch, now, s)
    requires s == MemberOf(u, id) && g == GroupOf(u, id.chat) && now == u.now
    requires s.proc != ReleasingRow(k, RecordRelease(Restored))
    requires MemberOf(Apply(u, m), id).proc == ReleasingRow(k, RecordRelease(Restored))
    ensures m.Step? && m.id == id && k < |s.rows|
    ensures var a := s.rows[k].decision.action;
      && (a == Mute || a == Ban || a == Kick)
      && EffectOn(u, m, id) == Sent(FromRelease(k), if a == Mute then Restore else UnbanMember, Accepted)
  {
    assert m.Step? && m.id == id;
    ReleaseArises(id, g, now, s, m.l, k);
    ReleaseResults(id, g, now, s, m.l, k);
  }

  /** Only mutes, bans and kicks are released by a call: a mute by restoring the member, a ban
      or kick by an unban. */
  lemma ReleaseCallsUndo(w: World, m: Move, id: MemberId, k: nat, c: Call, o: Outcome)
    requires Reachable(w) && EffectOn(w, m, id) == Sent(FromRelease(k), c, o)
    ensures k < |RowsOf(w, id)|
    ensures var a := RowsOf(w, id)[k].decision.action;
      (a == Mute && c == Restore) || ((a == Ban || a == Kick) && c == UnbanMember)
  {
    hide Next;
    ReachableInv(w);
    ApplyEffect(w, m, id);
  }

  lemma ReleaseArises(id: MemberId, g: Group, now: int, s: MemberState, l: Label, k: nat)
    requires MemberInv(id.user, g.epoch, now, s)
    requires Next(id, g, now, s, l).0.proc == ReleasingRow(k, RecordRelease(Restored))
    requires s.proc != ReleasingRow(k, RecordRelease(Restored))
    ensures s.proc.ReleasingRow? && s.proc.row == k < |s.rows| && Restricting(s.rows[k].decision.action)
  {
    hide PunishStep;
    if s.proc.Punishing? && l.Go? {
      NoRelease(id, g, now, s, l.env);
    }
  }

  lemma NoRelease(id: MemberId, g: Group, now: int, s: MemberState, env: Env)
    requires s.proc.Punishing?
    ensures !PunishStep(id, g, now, s, env).0.proc.ReleasingRow?
  {
  }

  /** A `Superseded` release is recorded while the newer action or session still holds. */
  lemma SupersededMeansNewer(w: World, id: MemberId, k: nat)
    requires Reachable(w) && MemberOf(w, id).proc == ReleasingRow(k, RecordRelease(Superseded))
    ensures k < |RowsOf(w, id)|
    ensures NewerPermission(RowsOf(w, id), SessionsOf(w, id), RowsOf(w, id)[k].createdAt)
  {
    ReachableInv(w);
    InvOfMember(w, id);
  }

  /** And after such a step nothing is due or owed any more. */
  lemma SettledIsClosed(w: World, m: Move, id: MemberId, k: nat)
    requires Reachable(w) && SettlesIn(w, m, id, k)
    ensures k < |RowsOf(Apply(w, m), id)|
    ensures !RowsOf(Apply(w, m), id)[k].releaseNeeded && !Owes(RowsOf(Apply(w, m), id)[k])
  {
    hide PunishStep, MemberInv, Inv;
    ReachableInv(w);
    InvOfMember(w, id);
    ReleasedRowExists(id.user, GroupOf(w, id.chat).epoch, w.now, MemberOf(w, id));
  }

  lemma ReleasedRowExists(user: int, epoch: nat, now: int, s: MemberState)
    requires MemberInv(user, epoch, now, s) && s.proc.ReleasingRow?
    ensures s.proc.row < |s.rows|
  {
  }

  // ---------------------------------------------------------------- a release spares what is newer

  /** A mute or ban that may be in effect: its call was not rejected, and the until_date that
      was sent with a timed mute has not come. */
  predicate InForce(r: Row, now: int) {
    r.sent
    && (r.decision.action == Ban
        || (r.decision.action == Mute && (TimedMute(r.decision) ==> r.until.Some? && now < r.until.value)))
  }

  /** A timed mute that a retry gave up because less than a whole second of its plan was left,
      before the date that was sent for it. */
  predicate GivenUp(r: Row, now: int) {
    r.status == Failed && r.sent && TimedMute(r.decision)
    && Deadline(r) - now < SECOND && r.until.Some? && now < r.until.value
  }

  /** Between the start of the last second of the plan and the date that was sent. */
  predicate Gap(deadline: int, date: int, now: int) {
    deadline - now < SECOND && now < date
  }

  lemma WholeDate(at: int, seconds: nat)
    requires seconds > 0
    ensures UntilDate(at, seconds) == Some(at + seconds * SECOND - at % SECOND)
  {
    assert at + seconds * SECOND == (at / SECOND + seconds) * SECOND + at % SECOND;
  }

  /** The date of a mute whose deadline was tested at one time and whose call was sent at
      another: it exceeds the deadline by no more than the delay between them, and there is a
      moment in the gap exactly when the fractions of a second of the call and of the time
      left at the test add up to less than a second and that delay, by more than one
      microsecond. */
  lemma GapIsOpen(tested: int, sent: int, deadline: int)
    requires tested <= sent && Seconds(deadline - tested) > 0
    ensures var date := UntilDate(sent, Seconds(deadline - tested));
      && date.Some? && sent < date.value <= deadline + (sent - tested)
      && ((exists now :: sent <= now && Gap(deadline, date.value, now)) <==>
            sent % SECOND + (deadline - tested) % SECOND < SECOND + (sent - tested) - 1)
  {
    var left := deadline - tested;
    var date := UntilDate(sent, Seconds(left)).value;
    WholeDate(sent, Seconds(left));
    assert left == left / SECOND * SECOND + left % SECOND;
    assert date == deadline + (sent - tested) - left % SECOND - sent % SECOND;
    assert Seconds(left) * SECOND >= SECOND;
    if sent % SECOND + left % SECOND < SECOND + (sent - tested) - 1 {
      assert Gap(deadline, date, date - 1) && sent <= date - 1;
    }
  }

  /** A release call is sent while no newer session is open, and while a newer mute or ban is
      in force exactly when that one is a timed mute that was given up and whose date has not
      come. */
  lemma ReleaseSparesNewer(w: World, m: Move, id: MemberId, k: nat, c: Call, o: Outcome)
    requires Reachable(w) && EffectOn(w, m, id) == Sent(FromRelease(k), c, o)
    ensures forall t :: 0 <= t < |SessionsOf(w, id)| && Active(SessionsOf(w, id)[t]) ==>
      k < |RowsOf(w, id)| && SessionsOf(w, id)[t].createdAt <= RowsOf(w, id)[k].createdAt
    ensures forall j :: k < j < |RowsOf(w, id)| ==>
      (InForce(RowsOf(w, id)[j], w.now) <==> GivenUp(RowsOf(w, id)[j], w.now))
  {
    hide Next;
    ReachableInv(w);
    ApplyEffect(w, m, id);
    assert FromReleaseSound(MemberOf(w, id), k, c);
    forall j | k < j < |RowsOf(w, id)|
      ensures InForce(RowsOf(w, id)[j], w.now) <==> GivenUp(RowsOf(w, id)[j], w.now)
    {
      NewerFailed(w, id, k, j);
    }
  }

  lemma NewerFailed(w: World, id: MemberId, k: nat, j: nat)
    requires Inv(w) && k < j < |RowsOf(w, id)|
    requires !NewerPermission(RowsOf(w, id), SessionsOf(w, id), RowsOf(w, id)[k].createdAt)
    ensures InForce(RowsOf(w, id)[j], w.now) <==> GivenUp(RowsOf(w, id)[j], w.now)
  {
    RowFacts(w, id, j);
    assert !StartedPermission(RowsOf(w, id)[j]);
  }

  /** Recording a restored member cancels only sessions no newer than the released
      punishment, and leaves none open. */
  lemma RestoredCloses(w: World, env: Env, id: MemberId, k: nat)
    requires Reachable(w) && MemberOf(w, id).proc == ReleasingRow(k, RecordRelease(Restored))
    ensures var (ss, ss') := (SessionsOf(w, id), SessionsOf(Apply(w, Step(id, Go(env))), id));
      && k < |RowsOf(w, id)| && |ss'| == |ss|
      && (forall t :: 0 <= t < |ss| ==> !Active(ss'[t]))
      && (forall t :: 0 <= t < |ss| && ss'[t] != ss[t] ==>
            Active(ss[t]) && ss[t].createdAt <= RowsOf(w, id)[k].createdAt && ss'[t] == ss[t].(status := Cancelled))
  {
    ReachableInv(w);
    InvOfMember(w, id);
  }
}
