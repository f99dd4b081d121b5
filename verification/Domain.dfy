/** Values shared by the moderation engine: decisions, punishment rows,
    verification sessions and the answers the environment may give. */
module Domain {

  datatype Option<+T> = None | Some(value: T)

  /** Time is counted in microseconds, the resolution of the DATETIME(6) columns. */
  const SECOND: int := 1_000_000

  datatype Action = Allow | ShadowLog | Delete | Warn | Mute | Ban | Kick | Unmute | Unban

  datatype Reason = LocalAdReview | RepeatedAd | SelfVerification | OtherReason

  datatype Source = Automatic | Manual | Review | Blacklist | Channel

  datatype Decision = Decision(action: Action, delete: bool, duration: nat, reason: Reason)

  /** Actions that change what a member may do; they run through StartPermission. */
  predicate Permission(a: Action) {
    a == Mute || a == Ban || a == Kick || a == Unmute || a == Unban
  }

  /** The takeoverActions filter: a pending row with such an action blocks verification. */
  predicate Takeover(a: Action) {
    a == Mute || a == Ban || a == Kick || a == Unmute
  }

  /** Actions whose effect has to be released when approval is lost. */
  predicate Restricting(a: Action) {
    a == Mute || a == Ban || a == Kick
  }

  /** A mute that ends by itself; local_ad_review mutes wait for an administrator. */
  predicate TimedMute(d: Decision) {
    d.action == Mute && d.reason != LocalAdReview
  }

  /** One member of one chat: the unit of locking. Negative users are channel identities. */
  datatype MemberId = MemberId(chat: int, user: int)

  /** A self-unmute punishment is keyed by the session that asked for it. */
  datatype EventKey = SelfUnmute(token: nat) | Event(id: int)

  datatype PunishmentStatus = Pending | Done | Skipped | Failed

  /** A row of `punishments` joined with its row of `punishment_workflows`.
      The last six fields are history: no transition reads them, they only
      record what happened so that properties can speak about it. */
  datatype Row = Row(
    key: EventKey, message: int, decision: Decision, source: Source, createdAt: int,
    status: PunishmentStatus, deleted: bool, acted: bool,
    workflow: bool, version: nat, started: bool, kickBanned: bool,
    releaseNeeded: bool, releaseAt: Option<int>,
    sent: bool,      // a permission call of this row succeeded or ended unknown
    rejected: bool,  // RejectPunishment failed this row
    revoked: bool,   // skipped by a loss of approval while a restriction was started
    settled: bool,   // no permission call since a release of this row finished
    unbanned: bool,  // an acknowledged unban was followed by a read that is not `kicked`
    until: Option<int>  // the latest until_date of a restrict call that may be in effect
  )

  function Deadline(r: Row): int {
    r.createdAt + r.decision.duration * SECOND
  }

  /** A delete of a known message was decided (every ban of one includes it). */
  predicate WantsDelete(r: Row) {
    r.message > 0 && (r.decision.delete || r.decision.action == Ban)
  }

  datatype SessionStatus =
    VPending | Completing | Expiring | Releasing | Verified | Expired | Cancelled | Blocked | Left

  datatype FailAction = FailKick | FailBan | FailMute

  /** A row of `verification_sessions` with its rows of `verification_answers`.
      `anonymousWrong` and `answered` are history. */
  datatype Session = Session(
    own: bool,       // the token starts with "self_"
    status: SessionStatus, attempts: nat, answer: int, failAction: FailAction,
    expiresAt: int, kickStarted: bool, createdAt: int, answers: map<int, bool>,
    anonymousWrong: nat,  // wrong answers submitted without an event key
    answered: bool        // answered correctly by its owner, in time, after fewer than three wrong answers
  )

  predicate Active(v: Session) {
    v.status == VPending || v.status == Completing || v.status == Expiring || v.status == Releasing
  }

  predicate Terminal(st: SessionStatus) {
    st == Verified || st == Expired || st == Cancelled || st == Blocked || st == Left
  }

  datatype Group = Group(known: bool, active: bool, approved: bool, epoch: nat)

  predicate Authorized(g: Group) {
    g.known && g.active && g.approved
  }

  /** Telegram's answers. A definite rejection (400/403) had no effect; everything
      else that is not an acknowledgement may or may not have taken effect. */
  datatype Outcome = Accepted | Rejected | Unknown

  datatype ChatStatus = Creator | Administrator | Member | Restricted(isMember: bool) | LeftChat | Kicked

  predicate Admin(c: ChatStatus) { c == Creator || c == Administrator }

  predicate Present(c: ChatStatus) {
    c == Member || Admin(c) || (c.Restricted? && c.isMember)
  }
}
