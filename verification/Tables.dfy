/** What each SQL statement or transaction does to the rows of one member.
    Every statement filters by (chat, user) or by an event key or token that
    belongs to one member, so the tables are kept member by member: `rows` in
    id order, `sessions` in creation order (a token is a position). */
module Tables {
  import opened Domain

  // ---------------------------------------------------------------- punishments

  predicate HasKey(rows: seq<Row>, key: EventKey) {
    exists i :: 0 <= i < |rows| && rows[i].key == key
  }

  function KeyIndex(rows: seq<Row>, key: EventKey): (i: nat)
    requires HasKey(rows, key)
    ensures i < |rows| && rows[i].key == key
  {
    if rows[0].key == key then 0
    else
      assert exists j :: 0 <= j < |rows[1..]| && rows[1..][j].key == key by {
        var i :| 0 <= i < |rows| && rows[i].key == key;
        assert rows[1..][i - 1].key == key;
      }
      1 + KeyIndex(rows[1..], key)
  }

  function NewRow(key: EventKey, message: int, d: Decision, source: Source, now: int): Row {
    Row(key, message, d, source, now, Pending, false, false,
        false, 0, false, false, false, None, false, false, false, false, false, None)
  }

  /** The first INSERT IGNORE of PreparePunishment. */
  function InsertRow(rows: seq<Row>, r: Row): seq<Row> {
    if HasKey(rows, r.key) then rows else rows + [r]
  }

  /** The second INSERT IGNORE of PreparePunishment. */
  function InsertWorkflow(g: Group, r: Row): Row {
    if r.workflow then r else r.(workflow := true, version := g.epoch)
  }

  predicate AuthorityHolds(g: Group, r: Row) {
    Authorized(g) && r.workflow && r.status == Pending && r.version == g.epoch
  }

  /** None is ErrAuthorityChanged (or a missing row): nothing was written. */
  function StartPermission(g: Group, r: Row, until: Option<int>): Option<Row> {
    if !AuthorityHolds(g, r) then None
    else if until.None? then Some(r.(started := true))
    else Some(r.(started := true, releaseNeeded := true, releaseAt := until))
  }

  function MarkKickBanned(r: Row): Row {
    r.(kickBanned := true)
  }

  function RejectPunishment(r: Row): Row {
    if r.status != Pending || !r.workflow then r
    else r.(status := Failed, releaseNeeded := false, started := false, rejected := true)
  }

  function FailPunishment(r: Row): Row {
    if r.status != Pending then r else r.(status := Failed)
  }

  function StepDeleted(r: Row): Row {
    if r.status != Pending then r else r.(deleted := true)
  }

  function StepActed(r: Row): Row {
    if r.status != Pending then r else r.(acted := true)
  }

  function StepDone(r: Row): Row {
    if r.status != Pending then r else r.(status := Done)
  }

  function StepSkipped(r: Row): Row {
    if r.status != Pending then r else r.(status := Skipped)
  }

  /** The last statement of CompleteTakeover for a manual action. */
  function SkipOlder(rows: seq<Row>, k: nat): seq<Row> {
    seq(|rows|, i requires 0 <= i < |rows| => if i < k then StepSkipped(rows[i]) else rows[i])
  }

  function CancelAllBut(sessions: seq<Session>, keep: Option<nat>): seq<Session> {
    seq(|sessions|, t requires 0 <= t < |sessions| =>
      if Active(sessions[t]) && Some(t) != keep
      then sessions[t].(status := Cancelled) else sessions[t])
  }

  /** The self session whose token is excluded from cancellation. */
  function Requester(r: Row): Option<nat> {
    if r.decision.reason == SelfVerification && r.key.SelfUnmute? then Some(r.key.token) else None
  }

  function CompleteTakeover(g: Group, rows: seq<Row>, sessions: seq<Session>, k: nat)
    : Option<(seq<Row>, seq<Session>)>
    requires k < |rows|
  {
    if !AuthorityHolds(g, rows[k]) then None
    else
      var sessions' := if rows[k].decision.action == Unban then sessions
                       else CancelAllBut(sessions, Requester(rows[k]));
      var acted := rows[k := StepActed(rows[k])];
      var rows' := if rows[k].source == Manual then SkipOlder(acted, k) else acted;
      Some((rows', sessions'))
  }

  // ---------------------------------------------------------------- reads

  /** VerificationTakenOver. */
  predicate TakenOver(rows: seq<Row>) {
    exists i :: 0 <= i < |rows| && rows[i].status == Pending && Takeover(rows[i].decision.action)
  }

  /** SelfVerificationBusy: the session's own unmute does not count. */
  predicate SelfBusy(rows: seq<Row>, token: nat) {
    exists i :: 0 <= i < |rows| && rows[i].status == Pending && Takeover(rows[i].decision.action)
                && rows[i].key != SelfUnmute(token)
  }

  predicate NewerManual(rows: seq<Row>, after: int) {
    exists i :: 0 <= i < |rows| && rows[i].source == Manual && rows[i].status == Done
                && rows[i].createdAt > after && Permission(rows[i].decision.action)
  }

  predicate StartedPermission(r: Row) {
    r.workflow && r.started && r.status != Failed && Permission(r.decision.action)
  }

  predicate NewerPermission(rows: seq<Row>, sessions: seq<Session>, after: int) {
    (exists i :: 0 <= i < |rows| && rows[i].createdAt > after && StartedPermission(rows[i]))
    || (exists t :: 0 <= t < |sessions| && sessions[t].createdAt > after && Active(sessions[t]))
  }

  predicate SelfUnmuteDone(rows: seq<Row>, token: nat) {
    exists i :: 0 <= i < |rows| && rows[i].key == SelfUnmute(token)
                && rows[i].status == Done && rows[i].acted
  }

  /** At most one session is active (see MemberInvariant), so no ordering is needed. */
  function ActiveSession(sessions: seq<Session>): (t: Option<nat>)
    ensures t.Some? ==> t.value < |sessions| && Active(sessions[t.value])
    ensures t.None? ==> forall i :: 0 <= i < |sessions| ==> !Active(sessions[i])
  {
    if sessions == [] then None
    else if Active(sessions[|sessions| - 1]) then Some(|sessions| - 1)
    else ActiveSession(sessions[..|sessions| - 1])
  }

  // ---------------------------------------------------------------- releases

  predicate ReleaseDue(r: Row, now: int) {
    r.workflow && r.releaseNeeded && r.releaseAt.Some? && r.releaseAt.value <= now
  }

  /** FinishPermissionRelease with an error: the release stays and becomes due later. */
  function PostponeRelease(r: Row, now: int): Row {
    r.(releaseAt := Some(now + 30 * SECOND))
  }

  /** FinishPermissionRelease without an error. */
  function FinishRelease(r: Row): Row {
    r.(releaseNeeded := false, settled := true)
  }

  function CancelUpTo(sessions: seq<Session>, at: int): seq<Session> {
    seq(|sessions|, t requires 0 <= t < |sessions| =>
      if Active(sessions[t]) && sessions[t].createdAt <= at
      then sessions[t].(status := Cancelled) else sessions[t])
  }

  // ---------------------------------------------------------------- loss of approval

  /** What changeAuthorization does to one punishment of the chat. */
  function RevokeRow(r: Row, now: int): Row {
    if r.status != Pending then r
    else if r.workflow && r.started && Restricting(r.decision.action)
    then r.(status := Skipped, releaseNeeded := true, releaseAt := Some(now), revoked := true)
    else r.(status := Skipped)
  }

  function RevokeRows(rows: seq<Row>, now: int): seq<Row> {
    seq(|rows|, i requires 0 <= i < |rows| => RevokeRow(rows[i], now))
  }

  /** changeAuthorization and ChangeSettings hand open sessions to the release path. */
  function ReleaseSessions(sessions: seq<Session>): seq<Session> {
    seq(|sessions|, t requires 0 <= t < |sessions| =>
      if sessions[t].status == VPending || sessions[t].status == Completing || sessions[t].status == Expiring
      then sessions[t].(status := Releasing) else sessions[t])
  }

  // ---------------------------------------------------------------- verification sessions

  /** The update at the head of DueVerifications. */
  function ExpireDue(sessions: seq<Session>, now: int): seq<Session> {
    seq(|sessions|, t requires 0 <= t < |sessions| =>
      if sessions[t].status == VPending && sessions[t].expiresAt <= now
      then sessions[t].(status := Expiring) else sessions[t])
  }

  function NewSession(own: bool, answer: int, fail: FailAction, expiresAt: int, now: int): Session {
    Session(own, VPending, 0, answer, fail, expiresAt, false, now, map[], 0, false)
  }

  function CreateSession(sessions: seq<Session>, v: Session): seq<Session> {
    sessions + [v]
  }

  function CreateSelfSession(sessions: seq<Session>, v: Session): seq<Session> {
    CancelAllBut(sessions, None) + [v]
  }

  datatype Verdict = Correct | Wrong

  function Record(v: Session, event: Option<int>, correct: bool): map<int, bool> {
    if event.None? then v.answers else v.answers[event.value := correct]
  }

  function Missed(v: Session, event: Option<int>, now: int): Session {
    v.(answers := Record(v, event, false), attempts := v.attempts + 1,
       expiresAt := if v.attempts + 1 >= 3 then now else v.expiresAt,
       anonymousWrong := v.anonymousWrong + if event.None? then 1 else 0)
  }

  function Hit(v: Session, event: Option<int>): Session {
    v.(status := Completing, answers := Record(v, event, true), answered := true)
  }

  /** Store.Answer. `owner` says whether the submitting user is the session's.
      A single-table UPDATE assigns from left to right, so the deadline test
      sees the incremented attempts. */
  function Answer(v: Session, owner: bool, submitted: int, event: Option<int>, now: int): (Session, Verdict) {
    if !owner then (v, Wrong)
    else if event.Some? && event.value in v.answers then
      (v, if v.answers[event.value] then Correct else Wrong)
    else if v.status != VPending || now > v.expiresAt || v.attempts >= 3 then (v, Wrong)
    else if submitted != v.answer then (Missed(v, event, now), Wrong)
    else (Hit(v, event), Correct)
  }

  /** The owner answers a pending session in time, not again, and after fewer than three wrong
      answers. */
  predicate Timely(v: Session, owner: bool, event: Option<int>, now: int) {
    owner && v.status == VPending && now <= v.expiresAt && v.attempts <= 2
    && (event.Some? ==> event.value !in v.answers)
  }

  /** The owner repeats an event that was recorded as a right answer. */
  predicate RepeatsRight(v: Session, owner: bool, event: Option<int>) {
    owner && event.Some? && event.value in v.answers && v.answers[event.value]
  }

  /** What an answer may do to a session, and what it is told: a timely right one completes
      it, a timely wrong one costs an attempt, and the third of these ends its time; anything
      else leaves it alone, and only a right answer sent again is called right. */
  predicate Judges(v: Session, owner: bool, submitted: int, event: Option<int>, now: int, v': Session, verdict: Verdict) {
    var right := Timely(v, owner, event, now) && submitted == v.answer;
    && (verdict == Correct <==> right || RepeatsRight(v, owner, event))
    && v' == (
         if right then
           v.(status := Completing, answered := true,
              answers := if event.Some? then v.answers[event.value := true] else v.answers)
         else if Timely(v, owner, event, now) then
           v.(attempts := v.attempts + 1,
              expiresAt := if v.attempts == 2 then now else v.expiresAt,
              answers := if event.Some? then v.answers[event.value := false] else v.answers,
              anonymousWrong := if event.Some? then v.anonymousWrong else v.anonymousWrong + 1)
         else v)
  }

  lemma AnswerJudges(v: Session, owner: bool, submitted: int, event: Option<int>, now: int)
    ensures var (v', verdict) := Answer(v, owner, submitted, event, now);
      Judges(v, owner, submitted, event, now, v', verdict)
  {
  }

  function BeginKick(v: Session): Session {
    if v.status == Expiring then v.(kickStarted := true) else v
  }

  /** None is ErrVerification: the status moved since it was read. */
  function FinishSession(v: Session, from: SessionStatus, to: SessionStatus): Option<Session> {
    if v.status == from then Some(v.(status := to)) else None
  }

  /** CancelExternallyManagedVerification, for an update dated `date` (whole seconds). */
  function CancelExternal(sessions: seq<Session>, date: int): seq<Session> {
    seq(|sessions|, t requires 0 <= t < |sessions| =>
      if sessions[t].createdAt < (date + 1) * SECOND
         && (sessions[t].status == VPending || sessions[t].status == Expiring
             || sessions[t].status == Completing || sessions[t].status == Expired)
      then sessions[t].(status := Cancelled) else sessions[t])
  }
}
