/** The transactions of the store that consist of several statements, statement by statement
    and in order, on tables that are updated in place. Each is proved to have the effect that
    the machine and the world give it in one step. */
module Store {
  import opened Domain
  import opened Tables
  import opened Machine
  import opened World

  // ---------------------------------------------------------------- UPDATE ... WHERE

  function UpdateRows(rows: seq<Row>, f: Row -> Row): seq<Row> {
    seq(|rows|, i requires 0 <= i < |rows| => f(rows[i]))
  }

  function UpdateSessions(sessions: seq<Session>, f: Session -> Session): seq<Session> {
    seq(|sessions|, t requires 0 <= t < |sessions| => f(sessions[t]))
  }

  /** release_needed and release_at of what was cut off while pending. */
  function OweRelease(r: Row, now: int): Row {
    if r.status == Pending && r.workflow && r.started && Restricting(r.decision.action)
    then r.(releaseNeeded := true, releaseAt := Some(now), revoked := true) else r
  }

  function Reopen(v: Session): Session {
    if v.status == VPending || v.status == Completing || v.status == Expiring then v.(status := Releasing) else v
  }

  // ---------------------------------------------------------------- the order of two statements

  lemma OweThenSkip(r: Row, now: int)
    ensures StepSkipped(OweRelease(r, now)) == RevokeRow(r, now)
  {
    if r.status == Pending && r.workflow && r.started && Restricting(r.decision.action) {
      assert OweRelease(r, now) == r.(releaseNeeded := true, releaseAt := Some(now), revoked := true);
    } else {
      assert OweRelease(r, now) == r;
    }
  }

  /** The other order would lose exactly the releases of the started restrictions. */
  lemma SkipThenOweLoses(r: Row, now: int)
    ensures OweRelease(StepSkipped(r), now) == RevokeRow(r, now) <==>
            !(r.status == Pending && r.workflow && r.started && Restricting(r.decision.action))
            || (r.releaseNeeded && r.releaseAt == Some(now) && r.revoked)
  {
    assert OweRelease(StepSkipped(r), now) == StepSkipped(r);
    if r.status == Pending {
      assert StepSkipped(r) == r.(status := Skipped);
    }
  }

  class Store {
    var world: World

    constructor (now: int)
      ensures world == Empty(now)
    {
      world := Empty(now);
    }

    /** One statement over the tables of the members of a chat. */
    method OnChat(chat: int, f: MemberState -> MemberState)
      modifies this
      ensures world == old(world).(members := EachOf(old(world), chat, f))
    {
      world := world.(members := EachOf(world, chat, f));
    }

    // -------------------------------------------------------------- chats

    method ChangeAuthorization(chat: int, status: Approval, leaving: bool)
      modifies this
      ensures world == Apply(old(world), Authorize(chat, status, leaving))
    {
      var g := GroupOf(world, chat);
      if !g.known || (status == Approved && !g.active) {
        return;
      }
      g := g.(approved := status == Approved, active := if leaving then false else g.active);
      world := world.(groups := world.groups[chat := g]);
      if status != Approved {
        var now := world.now;
        g := g.(epoch := g.epoch + 1);
        world := world.(groups := world.groups[chat := g]);
        OnChat(chat, (s: MemberState) => s.(rows := UpdateRows(s.rows, r => OweRelease(r, now))));
        OnChat(chat, (s: MemberState) => s.(sessions := UpdateSessions(s.sessions, Reopen)));
        OnChat(chat, (s: MemberState) => s.(rows := UpdateRows(s.rows, StepSkipped)));
        ThreeStatements(old(world), chat, now);
        assert world.groups == Apply(old(world), Authorize(chat, status, leaving)).groups;
      }
    }

    method RegisterGroup(chat: int)
      modifies this
      ensures world == Apply(old(world), Register(chat))
    {
      if chat < 0 {
        var g := GroupOf(world, chat);
        world := world.(groups := world.groups[chat := g.(known := true, active := true)]);
      }
    }

    /** ChangeSettings, as far as it touches sessions. */
    method ChangeSettings(chat: int, verificationEnabled: bool)
      modifies this
      ensures world == Apply(old(world), Configure(chat, verificationEnabled))
    {
      if Authorized(GroupOf(world, chat)) && !verificationEnabled {
        OnChat(chat, (s: MemberState) => s.(sessions := UpdateSessions(s.sessions, Reopen)));
        SettingsStatement(old(world), chat);
      }
    }

    lemma SettingsStatement(w: World, chat: int)
      ensures EachOf(w, chat, (s: MemberState) => s.(sessions := UpdateSessions(s.sessions, Reopen)))
           == EachOf(w, chat, (s: MemberState) => s.(sessions := ReleaseSessions(s.sessions)))
    {
      forall id: MemberId | id in w.members
        ensures UpdateSessions(w.members[id].sessions, Reopen) == ReleaseSessions(w.members[id].sessions)
      {
        SessionsReopen(w.members[id].sessions);
      }
    }

    lemma ThreeStatements(w: World, chat: int, now: int)
      ensures var a := w.(members := EachOf(w, chat, (s: MemberState) => s.(rows := UpdateRows(s.rows, r => OweRelease(r, now)))));
        var b := a.(members := EachOf(a, chat, (s: MemberState) => s.(sessions := UpdateSessions(s.sessions, Reopen))));
        EachOf(b, chat, (s: MemberState) => s.(rows := UpdateRows(s.rows, StepSkipped)))
          == EachOf(w, chat, (s: MemberState) => Revoke(s, now))
    {
      forall id: MemberId | id in w.members
        ensures UpdateRows(UpdateRows(w.members[id].rows, r => OweRelease(r, now)), StepSkipped) == RevokeRows(w.members[id].rows, now)
        ensures UpdateSessions(w.members[id].sessions, Reopen) == ReleaseSessions(w.members[id].sessions)
      {
        RowsInOrder(w.members[id].rows, now);
        SessionsReopen(w.members[id].sessions);
      }
    }

    lemma RowsInOrder(rows: seq<Row>, now: int)
      ensures UpdateRows(UpdateRows(rows, r => OweRelease(r, now)), StepSkipped) == RevokeRows(rows, now)
    {
      hide OweRelease, StepSkipped, RevokeRow;
      forall i | 0 <= i < |rows| ensures StepSkipped(OweRelease(rows[i], now)) == RevokeRow(rows[i], now) {
        OweThenSkip(rows[i], now);
      }
    }

    lemma SessionsReopen(sessions: seq<Session>)
      ensures UpdateSessions(sessions, Reopen) == ReleaseSessions(sessions)
    {
      forall t | 0 <= t < |sessions|
        ensures UpdateSessions(sessions, Reopen)[t] == Reopen(sessions[t]) == ReleaseSessions(sessions)[t]
      {
      }
    }

    // -------------------------------------------------------------- one member

    function Of(id: MemberId): MemberState
      reads this
    {
      MemberOf(world, id)
    }

    method Put(id: MemberId, rows: seq<Row>, sessions: seq<Session>)
      modifies this
      ensures world == old(world).(members := old(world).members[id := old(Of(id)).(rows := rows, sessions := sessions)])
    {
      world := world.(members := world.members[id := Of(id).(rows := rows, sessions := sessions)]);
    }

    /** CompleteTakeover: test, cancel, mark, skip; false is ErrAuthorityChanged. */
    method CompleteTakeover(id: MemberId, k: nat) returns (ok: bool)
      requires k < |Of(id).rows|
      modifies this
      ensures var t := Tables.CompleteTakeover(GroupOf(old(world), id.chat), old(Of(id)).rows, old(Of(id)).sessions, k);
        && ok == t.Some?
        && (!ok ==> world == old(world))
        && (ok ==> Of(id) == old(Of(id)).(rows := t.value.0, sessions := t.value.1))
      ensures world == old(world).(members := old(world).members[id := Of(id)]) || world == old(world)
    {
      var r := Of(id).rows[k];
      ok := AuthorityHolds(GroupOf(world, id.chat), r);
      if !ok {
        return;
      }
      var sessions := Of(id).sessions;
      if r.decision.action != Unban {
        sessions := CancelAllBut(sessions, if r.decision.reason == SelfVerification && r.key.SelfUnmute? then Some(r.key.token) else None);
      }
      Put(id, Of(id).rows, sessions);
      Put(id, Of(id).rows[k := StepActed(Of(id).rows[k])], Of(id).sessions);
      if r.source == Manual {
        Put(id, SkipOlder(Of(id).rows, k), Of(id).sessions);
      }
    }

    /** FinishPermissionRelease; `failed` is a cause, `released` a restored member. */
    method FinishPermissionRelease(id: MemberId, k: nat, failed: bool, released: bool)
      requires k < |Of(id).rows|
      modifies this
      ensures var (s, r) := (old(Of(id)), old(Of(id)).rows[k]);
        Of(id) == if failed then s.(rows := s.rows[k := PostponeRelease(r, world.now)])
                  else s.(rows := s.rows[k := FinishRelease(r)],
                          sessions := if released then CancelUpTo(s.sessions, r.createdAt) else s.sessions)
      ensures world == old(world).(members := old(world).members[id := Of(id)])
    {
      var r := Of(id).rows[k];
      if failed {
        Put(id, Of(id).rows[k := PostponeRelease(r, world.now)], Of(id).sessions);
        return;
      }
      if released {
        Put(id, Of(id).rows, CancelUpTo(Of(id).sessions, r.createdAt));
      }
      Put(id, Of(id).rows[k := FinishRelease(r)], Of(id).sessions);
    }

    /** CreateSelfVerification: no open session survives next to the new one. */
    method CreateSelfVerification(id: MemberId, v: Session)
      modifies this
      ensures Of(id) == old(Of(id)).(sessions := CreateSelfSession(old(Of(id)).sessions, v))
      ensures forall t :: 0 <= t < |Of(id).sessions| - 1 ==> !Active(Of(id).sessions[t])
      ensures world == old(world).(members := old(world).members[id := Of(id)])
    {
      Put(id, Of(id).rows, CancelAllBut(Of(id).sessions, None));
      Put(id, Of(id).rows, Of(id).sessions + [v]);
    }

    /** PreparePunishment: two inserts and a read. The inserted row, or the one that was there, has a
        workflow afterwards. */
    method PreparePunishment(id: MemberId, r: Row) returns (k: nat)
      modifies this
      ensures var rows := InsertRow(old(Of(id)).rows, r);
        k < |rows| && rows[k].key == r.key
        && Of(id) == old(Of(id)).(rows := rows[k := InsertWorkflow(GroupOf(old(world), id.chat), rows[k])])
      ensures world == old(world).(members := old(world).members[id := Of(id)])
    {
      var rows := InsertRow(Of(id).rows, r);
      assert HasKey(rows, r.key) by {
        assert !HasKey(Of(id).rows, r.key) ==> rows[|Of(id).rows|].key == r.key;
      }
      Put(id, rows, Of(id).sessions);
      k := KeyIndex(rows, r.key);
      Put(id, rows[k := InsertWorkflow(GroupOf(world, id.chat), rows[k])], Of(id).sessions);
    }

    /** Store.Answer for a session of its owner or of somebody else. The UPDATE of a wrong
        answer assigns from left to right. */
    method SubmitAnswer(id: MemberId, t: nat, owner: bool, submitted: int, event: Option<int>) returns (verdict: Verdict)
      requires t < |Of(id).sessions|
      modifies this
      ensures var (v, w) := Tables.Answer(old(Of(id)).sessions[t], owner, submitted, event, world.now);
        verdict == w && Of(id) == old(Of(id)).(sessions := old(Of(id)).sessions[t := v])
      ensures t < |Of(id).sessions|
        && Judges(old(Of(id)).sessions[t], owner, submitted, event, world.now, Of(id).sessions[t], verdict)
      ensures world == old(world).(members := old(world).members[id := Of(id)])
    {
      AnswerJudges(Of(id).sessions[t], owner, submitted, event, world.now);
      var v := Of(id).sessions[t];
      verdict := Wrong;
      if owner {
        if event.Some? && event.value in v.answers {
          verdict := if v.answers[event.value] then Correct else Wrong;
        } else if v.status == VPending && world.now <= v.expiresAt && v.attempts < 3 {
          if submitted != v.answer {
            v := v.(answers := Record(v, event, false));
            v := v.(anonymousWrong := v.anonymousWrong + if event.None? then 1 else 0);
            v := v.(attempts := v.attempts + 1);
            v := v.(expiresAt := if v.attempts >= 3 then world.now else v.expiresAt);
          } else {
            v := v.(status := Completing);
            v := v.(answers := Record(v, event, true), answered := true);
            verdict := Correct;
          }
        }
      }
      Put(id, Of(id).rows, Of(id).sessions[t := v]);
    }
  }
}
