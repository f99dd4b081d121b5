/** All chats and members together: the programs under the member locks, the
    writers that take no lock, and time. */
module World {
  import opened Domain
  import opened Tables
  import opened Machine
  import opened Invariant
  import opened Preservation
  import opened StepSafety
  import opened Evolution
  import opened Effects

  datatype World = World(now: int, groups: map<int, Group>, members: map<MemberId, MemberState>)

  const NoGroup: Group := Group(false, false, false, 0)

  function GroupOf(w: World, chat: int): Group {
    if chat in w.groups then w.groups[chat] else NoGroup
  }

  function MemberOf(w: World, id: MemberId): MemberState {
    if id in w.members then w.members[id] else Nobody
  }

  datatype Approval = Approved | Refused | Revoked

  datatype Move =
    | Tick(d: nat)
    | Step(id: MemberId, l: Label)
    | Authorize(chat: int, status: Approval, leaving: bool)
    | Register(chat: int)
    | Configure(chat: int, verificationEnabled: bool)
    | ExpireSessions

  function EachOf(w: World, chat: int, f: MemberState -> MemberState): map<MemberId, MemberState> {
    map id | id in w.members :: if id.chat == chat then f(w.members[id]) else w.members[id]
  }

  function Revoke(s: MemberState, now: int): MemberState {
    s.(rows := RevokeRows(s.rows, now), sessions := ReleaseSessions(s.sessions))
  }

  /** changeAuthorization: one transaction over the chat. */
  function ApplyAuthorize(w: World, chat: int, status: Approval, leaving: bool): World {
    var g := GroupOf(w, chat);
    if !g.known || (status == Approved && !g.active) then w
    else
      var g' := g.(approved := status == Approved, active := g.active && !leaving);
      if status == Approved then w.(groups := w.groups[chat := g'])
      else World(w.now, w.groups[chat := g'.(epoch := g.epoch + 1)],
                 EachOf(w, chat, (s: MemberState) => Revoke(s, w.now)))
  }

  /** RegisterGroup: a new chat waits for approval, a known one becomes active. */
  function ApplyRegister(w: World, chat: int): World {
    if chat >= 0 then w
    else w.(groups := w.groups[chat := GroupOf(w, chat).(known := true, active := true)])
  }

  /** ChangeSettings, as far as it touches sessions. */
  function ApplyConfigure(w: World, chat: int, verificationEnabled: bool): World {
    if !Authorized(GroupOf(w, chat)) || verificationEnabled then w
    else w.(members := EachOf(w, chat, (s: MemberState) => s.(sessions := ReleaseSessions(s.sessions))))
  }

  function ApplyExpire(w: World): World {
    w.(members := map id | id in w.members ::
                    w.members[id].(sessions := ExpireDue(w.members[id].sessions, w.now)))
  }

  function Apply(w: World, m: Move): World {
    match m
    case Tick(d) => w.(now := w.now + d)
    case Step(id, l) =>
      w.(members := w.members[id := Next(id, GroupOf(w, id.chat), w.now, MemberOf(w, id), l).0])
    case Authorize(chat, status, leaving) => ApplyAuthorize(w, chat, status, leaving)
    case Register(chat) => ApplyRegister(w, chat)
    case Configure(chat, on) => ApplyConfigure(w, chat, on)
    case ExpireSessions => ApplyExpire(w)
  }

  /** The Telegram call of a move on behalf of a member. */
  function EffectOn(w: World, m: Move, id: MemberId): Effect {
    if m.Step? && m.id == id then Next(id, GroupOf(w, id.chat), w.now, MemberOf(w, id), m.l).1 else Quiet
  }

  function Exec(w: World, ms: seq<Move>): World
    decreases |ms|
  {
    if ms == [] then w else Exec(Apply(w, ms[0]), ms[1..])
  }

  /** Every run starts with empty tables. */
  function Empty(now: int): World {
    World(now, map[], map[])
  }

  ghost predicate Reachable(w: World) {
    exists now: int, ms: seq<Move> :: Exec(Empty(now), ms) == w
  }

  // ---------------------------------------------------------------- the invariant of all members

  ghost predicate Inv(w: World) {
    forall id: MemberId :: MemberInv(id.user, GroupOf(w, id.chat).epoch, w.now, MemberOf(w, id))
  }

  lemma EmptyInv(now: int)
    ensures Inv(Empty(now))
  {
  }

  lemma OpenSessionsKeep(user: int, epoch: nat, now: int, s: MemberState)
    requires MemberInv(user, epoch, now, s)
    ensures MemberInv(user, epoch, now, s.(sessions := ReleaseSessions(s.sessions)))
    ensures MemberInv(user, epoch, now, s.(sessions := ExpireDue(s.sessions, now)))
  {
    hide MemberInv;
    ShiftKeeps(user, epoch, now, s, ReleaseSessions(s.sessions));
    ShiftKeeps(user, epoch, now, s, ExpireDue(s.sessions, now));
  }

  lemma MemberKeeps(w: World, m: Move, id: MemberId)
    requires MemberInv(id.user, GroupOf(w, id.chat).epoch, w.now, MemberOf(w, id))
    ensures MemberInv(id.user, GroupOf(Apply(w, m), id.chat).epoch, Apply(w, m).now, MemberOf(Apply(w, m), id))
  {
    hide MemberInv, Next;
    var s := MemberOf(w, id);
    var g := GroupOf(w, id.chat);
    match m {
      case Tick(d) => TickKeeps(id.user, g.epoch, w.now, w.now + d, s);
      case Step(j, l) => NextKeeps(id, g, w.now, s, l);
      case Authorize(chat, status, leaving) =>
        if chat == id.chat && g.known && status != Approved {
          assert Revoke(Nobody, w.now) == Nobody;
          RevokeKeeps(id.user, g.epoch, w.now, s);
          OpenSessionsKeep(id.user, g.epoch + 1, w.now, s.(rows := RevokeRows(s.rows, w.now)));
        }
      case Register(chat) =>
      case Configure(chat, on) =>
        assert ReleaseSessions([]) == [];
        OpenSessionsKeep(id.user, g.epoch, w.now, s);
      case ExpireSessions =>
        assert ExpireDue([], w.now) == [];
        OpenSessionsKeep(id.user, g.epoch, w.now, s);
    }
  }

  lemma ApplyKeeps(w: World, m: Move)
    requires Inv(w)
    ensures Inv(Apply(w, m))
  {
    hide MemberInv, Apply;
    forall id: MemberId
      ensures MemberInv(id.user, GroupOf(Apply(w, m), id.chat).epoch, Apply(w, m).now, MemberOf(Apply(w, m), id))
    {
      MemberKeeps(w, m, id);
    }
  }

  lemma {:induction false} ExecKeeps(w: World, ms: seq<Move>)
    requires Inv(w)
    ensures Inv(Exec(w, ms))
    decreases |ms|
  {
    hide Inv, Apply;
    if ms != [] {
      ApplyKeeps(w, ms[0]);
      ExecKeeps(Apply(w, ms[0]), ms[1..]);
    }
  }

  lemma ReachableInv(w: World)
    requires Reachable(w)
    ensures Inv(w)
  {
    var now, ms :| Exec(Empty(now), ms) == w;
    EmptyInv(now);
    ExecKeeps(Empty(now), ms);
  }

  lemma {:induction false} ExecAppend(w: World, ms: seq<Move>, m: Move)
    ensures Exec(w, ms + [m]) == Apply(Exec(w, ms), m)
    decreases |ms|
  {
    hide Apply;
    if ms == [] {
      assert Exec(w, [m]) == Exec(Apply(w, m), []);
    } else {
      assert (ms + [m])[1..] == ms[1..] + [m];
      ExecAppend(Apply(w, ms[0]), ms[1..], m);
    }
  }

  lemma {:induction false} ExecConcat(w: World, ms: seq<Move>, ns: seq<Move>)
    ensures Exec(w, ms + ns) == Exec(Exec(w, ms), ns)
    decreases |ms|
  {
    hide Apply;
    if ms == [] {
      assert ms + ns == ns;
    } else {
      assert (ms + ns)[1..] == ms[1..] + ns;
      ExecConcat(Apply(w, ms[0]), ms[1..], ns);
    }
  }

  lemma StaysReachable(w: World, ms: seq<Move>)
    requires Reachable(w)
    ensures Reachable(Exec(w, ms))
  {
    var now, pre :| Exec(Empty(now), pre) == w;
    ExecConcat(Empty(now), pre, ms);
  }

  // ---------------------------------------------------------------- what a move does to one member

  predicate SettlesIn(w: World, m: Move, id: MemberId, i: nat) {
    m.Step? && m.id == id && Settles(MemberOf(w, id), m.l, i)
  }

  predicate ConfirmsIn(w: World, m: Move, id: MemberId, i: nat) {
    m.Step? && m.id == id && Confirms(MemberOf(w, id), m.l, i)
  }

  predicate CommitsIn(w: World, m: Move, id: MemberId, i: nat) {
    m.Step? && m.id == id && Commits(MemberOf(w, id), m.l, i)
  }

  ghost predicate MemberSteps(w: World, m: Move, id: MemberId) {
    var (s, s') := (MemberOf(w, id), MemberOf(Apply(w, m), id));
    && |s.rows| <= |s'.rows| && |s.sessions| <= |s'.sessions|
    && (forall i :: 0 <= i < |s.rows| ==>
          RowStep(s.rows[i], s'.rows[i], SettlesIn(w, m, id, i), ConfirmsIn(w, m, id, i), CommitsIn(w, m, id, i)))
    && (forall t :: 0 <= t < |s.sessions| ==> SessionStep(s.sessions[t], s'.sessions[t]))
  }

  lemma OpenSession(v: Session, now: int)
    ensures SessionStep(v, v)
    ensures v.status == VPending || v.status == Completing || v.status == Expiring ==>
      SessionStep(v, v.(status := Releasing))
    ensures v.status == VPending ==> SessionStep(v, v.(status := Expiring))
  {
  }

  lemma SkippedRow(r: Row)
    requires r.status == Pending
    ensures RowStep(r, r.(status := Skipped), false, false, false)
  {
  }

  lemma CutOffRow(r: Row, now: int)
    requires r.status == Pending
    ensures RowStep(r, r.(status := Skipped, releaseNeeded := true, releaseAt := Some(now), revoked := true),
                    false, false, false)
  {
  }

  lemma RevokedStep(r: Row, now: int)
    ensures RowStep(r, RevokeRow(r, now), false, false, false)
  {
    hide RowStep;
    if r.status == Pending {
      SkippedRow(r);
      CutOffRow(r, now);
    } else {
      UnchangedRow(r);
    }
  }

  lemma ApplySteps(w: World, m: Move, id: MemberId)
    requires Inv(w)
    ensures MemberSteps(w, m, id)
  {
    hide MemberInv, Next, RowStep, SessionStep, Settles, Confirms, Commits;
    var s := MemberOf(w, id);
    assert MemberInv(id.user, GroupOf(w, id.chat).epoch, w.now, s);
    if m.Step? && m.id == id {
      NextSteps(id, GroupOf(w, id.chat), w.now, s, m.l);
    } else {
      var s' := MemberOf(Apply(w, m), id);
      assert |s'.rows| == |s.rows| && |s'.sessions| == |s.sessions|;
      forall i | 0 <= i < |s.rows| ensures RowStep(s.rows[i], s'.rows[i], false, false, false) {
        UnchangedRow(s.rows[i]);
        RevokedStep(s.rows[i], w.now);
      }
      forall t | 0 <= t < |s.sessions| ensures SessionStep(s.sessions[t], s'.sessions[t]) {
        OpenSession(s.sessions[t], w.now);
      }
    }
  }

  lemma ApplyEffect(w: World, m: Move, id: MemberId)
    requires Inv(w)
    ensures EffectSound(MemberOf(w, id), MemberOf(Apply(w, m), id), EffectOn(w, m, id))
  {
    hide MemberInv, Next, EffectSound;
    var s := MemberOf(w, id);
    assert MemberInv(id.user, GroupOf(w, id.chat).epoch, w.now, s);
    if m.Step? && m.id == id {
      NextEffect(id, GroupOf(w, id.chat), w.now, s, m.l);
    } else {
      QuietSound(s, MemberOf(Apply(w, m), id));
    }
  }
}
