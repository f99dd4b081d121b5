# Verification of the group-moderation bot

A Dafny model of the bot's durable member workflow and of the sequential algorithms beside
it, with proofs about every run, every interleaving and every input.

`dafny verify dfyconfig.toml` checks the whole project.

## What is modelled

**The member workflow.** Everything that may change what a member is allowed to do runs in
the background of crashes, lost answers and other writers:

* `Domain.dfy`, `Tables.dfy`: the stored rows (punishments joined with their workflows,
  verification sessions with their answers, chats with their authorization epoch) and what
  each SQL statement or transaction does to them. Tables are kept member by member, because
  every statement filters by chat and user or by a key that belongs to one member; `rows` is
  in id order and a session's token is its position.
* `Machine.dfy`: the programs that hold a member's lock, one database statement or Telegram
  call at a time: `punishLocked`, `Join`, `AnswerVerification`, `finishVerification`,
  `finishSelfVerification`, `StartSelfVerification`, `ObserveVerificationTakeover` and the
  release task. A label carries the environment's answers. Telegram answers *accepted*,
  *definitely rejected* (400/403) or *unknown*; dropping the program stands for a crash, a
  timeout or an error return and is possible after every step.
* `World.dfy`: all chats and members together with the writers that take no lock
  (`changeAuthorization`, `RegisterGroup`, `ChangeSettings`, the update at the head of
  `DueVerifications`) and time. `Exec` runs any list of moves; `Reachable` means reachable
  from empty tables.
* `Invariant.dfy`, `Preservation.dfy`, `StepSafety.dfy`, `Evolution.dfy`, `Effects.dfy`: the
  inductive invariant, that every step keeps it, what a step can do to a row or a session,
  and what a Telegram call implies about the state it was sent from.
* `Runs.dfy`, `Takeovers.dfy`, `Releases.dfy`, `DueDates.dfy`, `LastSecond.dfy`,
  `Revocation.dfy`, `Receipts.dfy`, `Saga.dfy`, `Fates.dfy`, `Sessions.dfy`, `Endings.dfy`: the
  theorems about whole runs.
* `Recovery.dfy`, `Progress.dfy`: the other direction, what each program achieves when nothing
  disturbs it, from any state an earlier attempt may have left.
* `Store.dfy`: the transactions of several statements as methods that update the tables in
  place, statement by statement, proved to have the one-step effect used above.
* `Locked.dfy`, `Punish.dfy`, `Verify.dfy`: the same programs in the form the source has
  them, as methods with local variables and early returns that update a `Host` (database and
  Telegram) in place while the others interfere between any two statements. A script says
  what the others do before each statement and which answers it gets. Each method keeps
  `Host.Valid`: the tables and the Telegram calls it leaves behind are exactly those of the
  machine's run under that script, one step for each moment of it, and the program dies only
  where the script ends. So all theorems speak about it, a program cannot skip a step or
  invent an answer, and what it does is fixed (`Locked.Determined`). On top of that the
  contracts say which calls were made, in which order (`Carried` a plan as a whole, or as far
  as it got), and what the result means.

Some fields of `Row` and `Session` (`sent`, `rejected`, `revoked`, `settled`, `unbanned`,
`until`, `anonymousWrong`, `answered`) are history: no transition reads them. `SentIffCalled`,
`UntilIsSent`, `ActedWasAcknowledged`, `KickActedTrace`, `RestoredMeansAcknowledged` and
`VerifiedWasAnswered` tie them to the calls and answers of the run itself.

**The durable inbox.** `Queue.dfy` has the statements and their runs, `Inbox.dfy` the class,
the polling loop and Telegram's side of `getUpdates`.

**Sequential algorithms.** `Rules.dfy` (evaluation of a message and its contexts),
`Decide.dfy` (decision, and reading it back from the log), `Limiter.dfy` (fixed window, spam
counters, locks), `Text.dfy` and `Welcome.dfy` (template, UTF-16 limit, entities),
`AdRules.dfy` (parser and printer).

## Findings

* **The last second of a mute** (`internal/service/moderation.go:246-254`,
  `internal/telegram/client.go:161-165`). The remaining time is truncated to whole seconds. A
  timed mute that may be in effect and is tried again with less than one second left is marked
  failed without a call. From then on it is no newer permission action
  (`internal/store/action_workflow.go:63-67`), so the release of an older punishment goes out
  although the date sent with the mute has not come. A release call meets a newer mute or ban
  in force if and only if it meets one given up like this: `Deadline - now < 1 s` and `now`
  before the until_date that was sent (`ReleaseSparesNewer`). The date is rounded down too, so
  such a moment exists exactly when the fractions of a second of the time of the call and of
  the time left at the test add up to less than a second and the delay between test and call,
  by more than a microsecond (`GapIsOpen`).
  It is reached with every duration a mute can have, 30 seconds to 366 days
  (`LastSecondIsReachable`).
* **`Decide` is not monotone in the score** (`internal/rules/engine.go:235-264`). A higher
  score softens the decision exactly when it crosses the direct threshold and so silences an
  AI asking for a mute (`HigherScoreSoftens`, and with the default settings
  `HigherScoreSoftensAtDefaults`).
* **`scanLog` does not always give back the local action** (`internal/store/store.go:357-365`).
  The decision it reads has been overwritten for a blacklisted sender and for a repeated
  advertisement (`internal/service/moderation.go:73-82`, `internal/service/ad_repeat.go:20-26`),
  for a channel (`internal/service/sender_chat.go:58-64`) and for a review on request
  (`internal/service/moderation.go:455-457`), and `Decide` itself hides a protected sender's
  match. It also invents an action for an AI warning whose reason is one of the two reserved
  words. `RebuiltIff` has the exact condition, for the log as first saved and as punishLocked
  leaves it.
* **`RetryDead`** (`internal/store/queue.go:76-94`) sets the attempts back to 0, and claims are
  numbered by attempts. It keeps the order of a partition only if no later row of it has been
  claimed (`ReviveKeepsOrderIff`). The return of a superseded claim is void as long as the row
  is not revived, and some later events make it current again if and only if the row is not
  handled yet (`StaleClaimIff`). `StaleReturnTakesEffect` is a run from the empty table in
  which the worker of the first claim comes back and has a row handled that another worker
  holds.
* **The fixed window** (`internal/state/redis.go:81-84`) admits fewer than twice its maximum in
  any interval of its length (`FewerThanTwiceMax`); that bound is reached if and only if the
  maximum is at most 1 or the window longer than one unit of time (`BurstIsReachedIff`).
* **The epoch in `authorization_epochs` never decides** (`internal/store/action_workflow.go:20`).
  A pending punishment with a workflow always carries the current epoch, so authority to act
  is approval (`AuthorityIsApproval`).

## Model

| member | source | states |
|---|---|---|
| World.ReachableInv | internal/service/moderation.go:98-337 | in every reachable state, over all interleavings, crashes and answers, every member satisfies the inductive invariant of rows, sessions and lock holder |
| World.ApplyEffect | internal/service/verification.go:240-369 | what every Telegram call implies about the state it is sent from, by the program that sends it |
| Runs.RowsEvolve | internal/store/store.go:435-451 | no run undoes a stored fact of a punishment: a finished status, the deleted, acted, sent, kick-banned and rejected marks, the epoch of its workflow |
| Runs.SessionsEvolve | internal/store/verification.go:60-166 | no run undoes a stored fact of a session: status rank, attempts and recorded answers only grow |
| Takeovers.SessionCallsYield | internal/service/verification.go:252-256 | verification sends a permission call only while no mute, ban, kick or unmute of the member is pending, and only for a session still open |
| Takeovers.CommitMove | internal/store/takeover.go:21-58 | a permission action is marked as carried out only by the commit of CompleteTakeover, under authority, with the cancellation of sessions and older work in the same move |
| Takeovers.CommitDoes | internal/store/takeover.go:21-58 | row by row and session by session: that commit marks the action as carried out; a manual one skips all older pending work; all but an unban cancel every open session other than the one that asked for it |
| Takeovers.TakeoverSilencesSessions | internal/store/takeover.go:38-48 | once a takeover commits, every session open then, except the self session that asked for it, stays cancelled for good and never sends again |
| Takeovers.ManualSilencesOlder | internal/store/takeover.go:52-56 | after a manual permission action commits, no older punishment of the member is pending, sends any call, or is released by a call, ever |
| Takeovers.WhatIsNewer | internal/store/store.go:525-529 | by the order of the ids: newer manual work is a later manual permission action that is done; what a release yields to is a later one that was started and has not failed, or a session opened since; a takeover is a pending mute, ban, kick or unmute |
| Releases.CallIsOwed | internal/store/action_workflow.go:9-35 | a restriction the bot must lift itself is owed from the moment its call may have taken effect |
| Releases.MuteReleaseIsDurable | internal/service/recovery.go:79-110 | a timed mute whose call was not rejected keeps a due release through skips, failures, revocations and crashes, until a release step of it restored the member or found something newer |
| Releases.RestoredMeansAcknowledged | internal/service/recovery.go:92-104 | a release is recorded as restored only after Telegram acknowledged its call, the restore of a muted member or the unban of a banned or kicked one, made by the very program that records it, and after that call the row's member got no other |
| Releases.ReleaseCallsUndo | internal/service/recovery.go:94-98 | only mutes, bans and kicks are released by a call: a mute by restoring the member, a ban or kick by an unban |
| Releases.SupersededMeansNewer | internal/store/action_workflow.go:63-67 | a release is given up for something newer only while a newer permission action or open session is stored |
| Releases.SettledIsClosed | internal/store/action_workflow.go:94-107 | after the step that settles a release nothing is due or owed for that row |
| DueDates.NotBeforeItsTime | internal/store/action_workflow.go:69-74 | in every run a release call goes out only for a mute whose end has come or for what a loss of approval cut off; a ban, a kick or a mute that waits for review is never lifted otherwise |
| DueDates.ReleaseIsDated | internal/store/action_workflow.go:9-35 | a stored release has a date, not before the end of its mute unless approval was lost |
| Releases.ReleaseSparesNewer | internal/store/action_workflow.go:63-67 | a release call is sent while no newer session is open, and while the until_date sent with a newer mute, or a newer ban, is still in force if and only if that one is a timed mute given up in the last second of its plan before that date |
| Releases.GapIsOpen | internal/telegram/client.go:161-165 | the until_date exceeds the plan's end by at most the delay between deadline test and call, and a moment in the plan's last second lies before that date exactly when the two fractions of a second leave room for it |
| Releases.RestoredCloses | internal/store/action_workflow.go:89-108 | recording a restored member cancels only sessions no newer than the released punishment and leaves none open |
| LastSecond.LastSecondIsReachable | internal/service/moderation.go:246-254 | for every duration from 30 seconds to 366 days, a run with two mutes of that duration in which the release of the older one is sent while the newer one is in force |
| Revocation.RevocationCommits | internal/store/authorization.go:30-75 | losing approval, in one commit: epoch plus one, no punishment pending, exactly the started mutes, bans and kicks among them get a due release, and exactly the open sessions are releasing |
| Revocation.ChatsChange | internal/store/authorization.go:36-63 | a chat is approved only by a decision while it is known and active, every other decision takes the approval and moves the epoch on, leaving makes it inactive, being added active without an approval; nothing else changes it |
| Revocation.SettingsRelease | internal/store/menu.go:38-84 | switching verification off in a chat under approval releases exactly its open sessions |
| Revocation.RevokedForever | internal/store/authorization.go:57-70 | a punishment cut off by a loss of approval never starts or commits again, whatever follows, and its release stays until a release step settled it |
| Revocation.AuthorityIsApproval | internal/store/action_workflow.go:15-25 | a pending punishment with a workflow carries the chat's current epoch, so it has authority if and only if the chat is approved and active |
| Saga.OutcomeIsFinal | internal/store/store.go:435-451 | a status leaves pending at most once; status, started, acted and deleted are fixed from then on |
| Saga.OutcomeIsHonest | internal/service/moderation.go:193-337 | done implies acted, and deleted whenever a known message was to be deleted; acted implies started; failed after an effect only for a timed mute at its deadline |
| Fates.StatusIsFate | internal/service/moderation.go:114-337 | the complete account of a punishment's status after any move: done, skipped or failed by exactly its own program's step, skipped by exactly the commit of a newer manual action or a loss of approval, and otherwise unchanged |
| Saga.RejectedHadNoEffect | internal/service/moderation.go:152-169 | a punishment failed by the deferred rule sent, over all retries and crashes of the run, only permission calls that were definitely rejected |
| Saga.SentIffCalled | internal/service/moderation.go:220-282 | a row is marked as sent exactly when some permission call of it in the run was not definitely rejected |
| Saga.UntilIsSent | internal/telegram/client.go:161-165 | the date of a restriction changes only by a call that was not rejected, to the time of that call plus the whole seconds left at the deadline test, rounded down to a second; of two dates that may be in effect the later is kept |
| Saga.ActedWasAcknowledged | internal/service/moderation.go:220-290 | a mute, ban, unmute, unban, warning or deletion is recorded as carried out only if Telegram acknowledged the call it stands for, earlier in the run: restrict, ban, restore, unban, notice, delete |
| Saga.DeletedWasAcknowledged | internal/service/moderation.go:193-203 | a message counts as deleted only after an acknowledged delete |
| Saga.CallsFitTheAction | internal/service/moderation.go:241-275 | in every reachable state, a punishment's permission calls are those of its own action: only a mute restricts, only an unmute restores, only a ban or a kick not yet banned bans, only an unban or a kick already banned unbans |
| Saga.KickBansOnce | internal/service/moderation.go:257-271 | once kick_banned is stored, no retry of the kick bans again |
| Saga.KickActedTrace | internal/service/kick.go:12-25 | a kick is recorded as carried out only after an acknowledged ban, then an acknowledged unban, then a membership read that was not kicked |
| Sessions.ChangesBounded | internal/service/verification.go:237-369 | every status change of a session raises its rank, so it changes at most four times in any run |
| Sessions.VerifiedWasAnswered | internal/store/verification.go:60-125 | a session is verified only after, earlier in the run, its owner's correct answer in time with fewer than three wrong ones |
| Sessions.VerifiedFromCompleting | internal/store/verification.go:146-166 | the only way to verified leads through completing |
| Sessions.AttemptsAreWrongAnswers | internal/store/verification.go:103-107 | attempts equal the distinct wrong answer events plus the wrong answers without a key, and never exceed three |
| Sessions.ReplayIsStable | internal/store/verification.go:80-92 | a recorded answer event gets its first verdict again in every later state and changes nothing |
| Sessions.AnswerIsJudged | internal/store/verification.go:60-125 | the complete account of an answer: the owner's right one, new and in time and after fewer than three wrong ones, and no other, completes the session; a wrong one of that kind, and no other, adds one attempt and with the third sets the deadline to now; the program goes on exactly after a right answer or its repetition |
| Sessions.OneOpenSession | internal/store/self_verification.go:37-51 | at most one session of a member is open, across joins, self-unmutes, takeovers, expiry, settings and authorization |
| Sessions.SelfVerifiedMeansUnmuted | internal/service/self_verification.go:173-193 | a self session is verified only if its own unmute was carried out |
| Endings.EndsAsRead | internal/service/verification.go:257-341 | before the program of a join's session writes a status, it read the member once and then made exactly the calls, all acknowledged, that what it read asks for, and they lead to that status |
| Endings.VerifiedWasRestored | internal/service/verification.go:297-302 | a member who joined is verified only by a program that had an acknowledged restore, unless it had read the member as creator or administrator |
| Endings.BlockedWasBanned | internal/service/verification.go:292-296 | a member who joined is blocked only with an acknowledged ban |
| Endings.ExpiredWasRemoved | internal/service/verification.go:304-337 | the session of a present, unprotected member expires only with an acknowledged ban, or for a kick a ban, then an unban, then a read that is not kicked |
| Endings.CancelledWasRestored | internal/service/verification.go:270-282 | a program that cancels a join's session of a member it read as restricted had an acknowledged restore |
| Store.Store.ChangeAuthorization | internal/store/authorization.go:30-75 | the statements in their order have the effect of the one-step loss or grant of approval over all members of the chat |
| Store.SkipThenOweLoses | internal/store/authorization.go:61-69 | with the two punishment statements swapped, exactly the releases of started restrictions would be lost |
| Store.Store.ChangeSettings | internal/store/menu.go:38-84 | switching verification off hands every open session of the chat to the release path |
| Store.Store.RegisterGroup | internal/store/store.go:103-109 | a new chat waits for approval, a known one becomes active and keeps its approval and epoch |
| Store.Store.PreparePunishment | internal/store/store.go:419-434 | a key is inserted at most once, and its row ends with a workflow of the epoch at the first insert |
| Store.Store.CompleteTakeover | internal/store/takeover.go:21-58 | all of its statements or none, by the authority test |
| Store.Store.FinishPermissionRelease | internal/store/action_workflow.go:89-108 | postponed after a failure, otherwise settled, with older sessions cancelled only for a restored member |
| Store.Store.CreateSelfVerification | internal/store/self_verification.go:37-51 | the new session is the only one left open |
| Store.Store.SubmitAnswer | internal/store/verification.go:60-125 | right exactly for the owner's right answer, new and in time and after fewer than three wrong ones, or its repetition; what is stored of it, with the update of a wrong answer assigning from left to right |
| Punish.PreparePunishment | internal/store/store.go:419-434 | the attempt works on the stored punishment of its key, found or inserted, which has a workflow |
| Punish.Preflight | internal/service/moderation.go:173-192 | protection and newer manual work end the punishment as skipped; otherwise the action stage begins |
| Punish.DeleteFirst | internal/service/moderation.go:193-203 | the message goes first unless the punishment is a ban, by exactly one call; past it an acknowledged delete counts as an effect, and a refused one before any effect is left to the deferred rule |
| Punish.Start | internal/store/action_workflow.go:9-35 | before any call of a permission action its start, and the release of a timed mute, are stored, and a timed mute goes on only with the whole seconds it has left |
| Punish.CallOnce | internal/service/moderation.go:220-278 | exactly the one call the action stands for (restrict, ban, restore, unban, notice or delete), or none for a delete that has happened; success means it was acknowledged and is remembered |
| Punish.BanForKick | internal/service/moderation.go:257-267 | success means that kick_banned is stored, after one acknowledged ban unless an earlier attempt made it |
| Punish.ReleaseKick | internal/service/kick.go:12-25 | success means exactly one acknowledged unban, confirmed by a membership read that was not kicked |
| Punish.CommitAction | internal/store/takeover.go:21-58 | past the commit a punishment that is still pending is marked as acted |
| Punish.Act | internal/service/moderation.go:204-291 | past the switch over the action, also when an earlier attempt went through it, a punishment that is still pending is marked as acted, and the calls made are those of the action, in order |
| Punish.PunishSender | internal/service/sender_chat.go:72-98 | a channel identity's punishment ends done or skipped after one delete and one warning at most, those that its row still needs, and no other call |
| Punish.RejectIfClean | internal/service/moderation.go:152-169 | the deferred rule leaves the punishment pending no more |
| Punish.PunishLocked | internal/service/moderation.go:114-337 | the whole attempt, under any interference, is the machine's run; it ends with the lock free or back in the calling self session, and returns nil only if the punishment is skipped, or done with its action carried out and its message deleted; the calls made are those that the stored row needed, in order and all acknowledged if it returns nil, otherwise as far as it got |
| Verify.FinishVerification | internal/service/verification.go:240-369 | the whole program frees the lock; the status it reports is stored and may follow the one it read, and its calls are exactly those that what it read asks for (`Endings.EndsBy`), all of them if a status is reported, or those of the session's own unmute |
| Verify.Work | internal/service/verification.go:270-341 | the permission calls that the status and the member as read ask for, in order and all acknowledged when it succeeds, up to the first that is not when it fails, and the status they lead to |
| Verify.FinishSelfVerification | internal/service/self_verification.go:150-202 | a self session is reported verified only with that status stored and its own unmute carried out; its only calls are those of that unmute, and a session that was not completing makes none |
| Verify.AnswerVerification | internal/service/verification.go:190-235 | the verdict is right exactly as `Sessions.AnswerIsJudged` has it, of the session as it then was, and what it makes of the session is stored; a wrong answer makes no call, and a status that is reported is stored, with exactly the calls that lead to it |
| Verify.Join | internal/service/verification.go:55-109 | at most one call is made, and it restricts the member of a session that is already stored |
| Verify.ReleaseRow | internal/service/recovery.go:84-108 | at most one call, a restore for a mute and an unban otherwise; recorded as restored only if it was acknowledged, which leaves no session open up to that row, as superseded only without a call, and postponed by 30 seconds otherwise |
| Verify.StartSelfVerification | internal/service/self_verification.go:75-147 | the session it reports is stored as drafted and is the member's only open one; no call is made |
| Recovery.AttemptFinishes | internal/service/moderation.go:114-337 | from any stored pending punishment, also one an earlier attempt left half done, an attempt under approval that nothing disturbs makes exactly the calls still due, in order, and ends done, acted and deleted |
| Recovery.SparedIsSkipped | internal/service/moderation.go:173-192 | a protected member, and one whom an administrator dealt with since, is skipped without a call |
| Recovery.LateMuteFails | internal/service/moderation.go:206-213 | a mute not begun before its end fails without restricting anybody |
| Recovery.RejectionEnds | internal/service/moderation.go:152-169 | a definite rejection before any effect fails the punishment and takes its write-ahead back |
| Recovery.SenderFinishes | internal/service/sender_chat.go:72-98 | a channel's punishment makes exactly the delete and the warning still due and ends done |
| Recovery.BeginsAttempt | internal/service/moderation.go:114-143 | an attempt begins with the row of its key, the stored one or a new one with the decision to be stored: a repeated advertisement becomes a mute, a ban of a known message deletes it |
| Progress.ProgramsBegin | internal/service/moderation.go:98-129 | a program begins only while no other holds the member's lock; a session lasts for the time the chat gives; a release is listed exactly once its date has come; a punishment is not begun only if there is nothing to do, its session is unknown, or the message was punished already and would only be deleted again |
| Progress.JoinAlone | internal/service/verification.go:55-109 | a newcomer is restricted once, under the open session or a new one, and not at all while a punishment waits |
| Progress.AnswerAlone | internal/service/verification.go:190-235 | which answers are looked at, what they do, and when the rest of the verification follows |
| Progress.FinishWaits | internal/service/verification.go:240-256 | a finished session, or one whose member waits for a punishment, is left alone |
| Progress.FinishAlone | internal/service/verification.go:257-369 | otherwise a join's session ends as the member is read, with exactly the calls that takes |
| Progress.FinishSelfAlone | internal/service/self_verification.go:150-202 | when a self session goes on to its unmute, and how it ends otherwise |
| Progress.SelfEndsAlone | internal/service/self_verification.go:173-193 | verified if its unmute was carried out and cancelled otherwise |
| Progress.StartSelfAlone | internal/service/self_verification.go:75-147 | exactly when a member may ask for a session, which then takes the place of whatever was open |
| Progress.ReleaseAlone | internal/service/recovery.go:84-108 | a due release restores the member by one call and closes what it covers, yields to anything newer, and comes again after 30 seconds when refused |
| Progress.ObserveAlone | internal/store/self_verification.go:14-17 | an administrator's own act ends exactly the sessions created before the end of the second it is dated, unless they are being released or over already |
| Progress.ExpiryIsDue | internal/store/verification.go:126-130 | exactly the pending sessions whose time is over begin to expire |
| Queue.PartitionsAreSerial | internal/store/queue.go:42-46 | with ids inserted in order, and revivals only while no later row was claimed, a partition has at most one row in processing, its least live one, and rows leave the live set in id order |
| Queue.TakeTakesIff | internal/store/queue.go:42-57 | a claim takes effect exactly on a waiting row whose time has come, or one in processing whose lease is over, once every smaller row of its partition is done or dead, and then holds it for 90 seconds |
| Queue.LeaseExcludes | internal/store/queue.go:44-46 | for 90 seconds after a claim, and until it is returned, nobody claims that row or a later one of its partition, whatever else happens |
| Queue.LeaseRunsOut | internal/store/queue.go:44 | after that, the first attempt that finds the row first in its partition takes it over |
| Queue.FailureBacksOff | internal/store/queue.go:60-74 | after its n-th failed claim a row, and with it the rest of its partition, is left alone for n * n seconds; after the fifth it is dead |
| Queue.SuccessIsFinal | internal/store/queue.go:60-74 | a claim returned with success is handled for good |
| Queue.SupersededReturnIsVoid | internal/store/queue.go:60-74 | the return of a claim that was superseded or already returned changes nothing, however late, as long as that row is not revived |
| Queue.FifthFailureKills | internal/store/queue.go:64-72 | in any run at most five failing returns of an update take effect, and five more for each revival; with the last of them it is dead |
| Queue.InsertedOnce | internal/store/maintenance.go:10-18 | retention, revival and everything else never free an id for a second insert |
| Queue.ReviveKeepsOrderIff | internal/store/queue.go:76-94 | reviving a dead row keeps the partition's order if and only if no later row was claimed |
| Queue.StaleClaimIff | internal/store/queue.go:87 | the number of a superseded claim never becomes current again without a revival of its row, and becomes current again in some continuation if and only if the row is not handled |
| Queue.RevivedUpTo | internal/store/queue.go:87 | a dead row that is first in its partition can be revived and claimed up to any claim number |
| Queue.StaleReturnTakesEffect | internal/store/queue.go:60-94 | a run from the empty table: claim 1 is superseded, the row dies and is revived, and the return of claim 1, sent by nobody who holds it, makes it handled |
| Inbox.Inbox.Claim | internal/store/queue.go:34-59 | the least due row that is not locked, with a fresh claim number; none only if every due row is locked; due is what `Queue.TakeTakesIff` says |
| Inbox.Inbox.RetryDead | internal/store/queue.go:76-94 | revives exactly a dead row |
| Inbox.Inbox.Finish | internal/store/queue.go:60-74 | the update of exactly the current claim |
| Inbox.Poll | internal/bot/runner.go:19-49 | with a failure after any statement and any number of restarts, the inbox holds exactly a prefix of the updates, each inserted once and in order, and neither the stored offset nor what Telegram forgot goes beyond it; each round that nothing disturbs stores at least 100 of the updates that had arrived, or all |
| Inbox.Deliver | internal/bot/runner.go:24-46 | one round keeps that, and what the poller remembers is stored; an undisturbed one stores the 100 oldest updates that had arrived and asks for the next ones |
| Inbox.NothingIsLost | internal/store/queue.go:12-28 | every arrived update below the stored offset, or forgotten by Telegram, is in the inbox, and no id was inserted twice |
| Inbox.InsertsAreInOrder | internal/bot/runner.go:36-41 | the poller inserts in the order that the queue relies on |
| Rules.Evaluate | internal/rules/engine.go:110-138 | the result meets the order-free specification: exactly the rules matched in some part, each once and for the first part it matched in, the strongest action, and 100 or the capped sum of weights |
| Rules.EvaluatePart | internal/rules/engine.go:139-213 | one part: exactly the matched rules with their weights, bonuses only on top of other evidence |
| Rules.Add | internal/rules/engine.go:141-151 | a rule tried at its place, with the built-in score or the chat's own setting |
| Rules.OrderDoesNotMatter | internal/rules/engine.go:110-138 | score and action depend only on the set of matched rules |
| Rules.StrongestWins | internal/rules/local_action.go:3-9 | a ban wins over a mute over a delete among the rules that matched |
| Rules.WhatLocalRulesFind | internal/rules/engine.go:187-206 | a rule of the chat's own list is reported exactly if it is switched on and its pattern, not blank, occurs in some part, is the whole of one, or accepts one |
| Rules.ContextsOnlyAdd | internal/rules/engine.go:114-133 | adding contexts never lowers the score or the action |
| Rules.ScoreIsPercentage | internal/rules/local_action.go:3-9 | the score is between 0 and 100, and 100 whenever a local action applies |
| Decide.WhenEachAction | internal/rules/engine.go:235-274 | without a local match: exactly when ban, mute, warning, deletion or a mere log entry comes out |
| Decide.WhenLocal | internal/rules/engine.go:217-234 | with a local match: the decision, and the mute for review at the third violation |
| Decide.MoreViolations | internal/rules/engine.go:247-268 | more violations never soften the decision |
| Decide.MoreConfidence | internal/rules/engine.go:237-246 | a more confident AI never softens the decision |
| Decide.OpinionMatters | internal/rules/engine.go:215-273 | the AI changes the decision if and only if nothing else decides and one of its effective confidences is reached, with the protected sender's case |
| Decide.HigherScoreSoftens | internal/rules/engine.go:235-264 | a higher score softens the decision if and only if it silences an AI that alone asks for a mute |
| Decide.ProtectedIsSpared | internal/rules/engine.go:269-273 | a protected sender is at most logged |
| Decide.BareDecisionTells | internal/rules/engine.go:215-273 | what the bare decision tells of the local action, and exactly when it does not |
| Decide.RebuiltIff | internal/store/store.go:337-366 | the saved log, at first and after punishLocked wrote to it, tells the local action exactly unless the sender was protected, blacklisted or a channel, the message was repeated and not banned or muted for review all the same, or was reviewed on request, or an AI warning was saved with a reserved word as its reason |
| Limiter.AcceptsFirst | internal/state/redis.go:81-84 | exactly the first max calls of each window are accepted |
| Limiter.FewerThanTwiceMax | internal/state/redis.go:81-84 | any half-open interval of the window's length holds at most 2 * max - 1 accepted calls |
| Limiter.BurstIsReachedIff | internal/state/redis.go:82 | some ascending call times reach that bound if and only if the maximum is at most one or the time to live is at least two |
| Limiter.ReportsDistinctUpdates | internal/state/redis.go:69-80 | the reported pair counts the distinct updates since the rate window, and the repeat window of the text, were opened, with windows and memory recomputed from the times of the calls alone |
| Limiter.ReplayIsStable | internal/state/redis.go:72-75 | a retried update gets its first answer for a day and changes no counter |
| Limiter.LockExcludes | internal/state/redis.go:48-67 | until its lease runs out or its holder releases it, a lock is neither acquired again nor freed by another's release |
| Limiter.ReleasedIsFree | internal/state/redis.go:48-67 | once its holder releases it, or its lease is over, a lock can be acquired at once |
| Limiter.State.Limit | internal/state/redis.go:81-84 | the script's counter and answer |
| Limiter.State.CountSpam | internal/state/redis.go:70-80 | the script's three keys of one chat and user, and nobody else's |
| Limiter.State.Lock | internal/state/redis.go:48-59 | acquires if and only if the key is free or expired |
| Welcome.WelcomeMessage | internal/service/welcome.go:26-77 | the text is the cut of the single-pass expansion, the entities those of its mentions |
| Welcome.Renderer.AppendText | internal/service/welcome.go:50-67 | appending a piece keeps text, offset and entities those of the pieces so far |
| Welcome.ValuesAreVerbatim | internal/service/welcome.go:68-75 | each variable is replaced where it stands and its value is never expanded again |
| Welcome.VariablesStandFor | internal/service/welcome.go:26-49 | the value of each of the five variables, by field |
| Welcome.PiecesExpand | internal/service/welcome.go:68-75 | the loop over the matches produces the single-pass expansion |
| Welcome.CutIsLongest | internal/service/welcome.go:55-63 | the sent text is the longest prefix within 3000 UTF-16 units, cut between code points |
| Welcome.EntitiesAreOrdered | internal/service/welcome.go:64-66 | entities are non-empty, ascending, disjoint and in range |
| Welcome.EntitiesCoverMentions | internal/service/welcome.go:64-66 | the entities are exactly those over the sent parts of mentions |
| Welcome.SentIsPrefix | internal/service/welcome.go:50-67 | what is sent of a piece is a prefix of it, all of it unless the limit cut it |
| AdRules.ParseAdRules | internal/domain/local_settings.go:47-73 | the loop computes the parse of the whole text, with its two ways to fail |
| AdRules.FormatAdRules | internal/domain/local_settings.go:74-84 | the loop prints every rule on its line |
| AdRules.PrintThenParse | internal/domain/local_settings.go:46-84 | for a valid list, parsing the printed text gives the list back if and only if no pattern has blanks at its ends |
| AdRules.ParsedLists | internal/domain/local_settings.go:30-43 | the lists some text parses to are exactly the valid ones with trimmed patterns |
| AdRules.NormalForm | internal/domain/local_settings.go:46-84 | printing a parsed text is a normal form |
| AdRules.LineIsAccepted | internal/domain/local_settings.go:46-73 | the line of each mode and action, switched on or off, parses to that rule |

## Left out

- Assumed of the database: `created_at` strictly increases with the id of a member's punishments (an insert waits until the clock has moved on), each statement or transaction is one atomic step, and a lock holder finishes within the lock's time to live.
- The tests before the lock (`GroupAuthorized`, list status, chat type) and `MessageAlreadyPunished` and the repeated-advertisement lookup are arbitrary answers: they only decide whether a program begins and with which decision.
- Retry scheduling, attempt counters and batching (`RetryPunishment`, `VerificationRetry`, `PendingTakeovers`, `recoverGroups`): a program may begin for any stored row at any time, which includes every schedule.
- Notices that carry no permission (verification prompts and welcomes inside `finishVerification`, the log channel, `RememberAdWarning`, `UpdateLogDecision`): they only add points at which a program can end early.
- Membership, list status, settings and administrator rights read by `finishVerification` are taken as one answer per attempt.
- `DuePermissionReleases` and `DueVerifications` may list a row long before its program begins; their limits per chat are not modelled.
- Regular expressions, text cleaning and the patterns of the built-in table are parameters of `Rules` and `AdRules`; hashes are taken to be injective and tokens to be unique.
- Confidences are reals: the rounding of 64-bit floating point numbers is not modelled.
- Texts are sequences of code points; invalid UTF-8 is not modelled.
- Web panel, menus, commands, keyword replies, AI and Telegram clients, credentials, migrations and statistics add only easy members.
- `Recovery` and `Progress`: the clock and the answers of each kind stay the same from the first step of the program to its last.
- Telegram's own clock: a restriction is taken to end at the until_date sent with it, by the clock of the bot.
- Limiter.State: eviction and restarts of Redis, and a time to live of zero, which no caller passes, are not modelled.
- Locked.Host.Send: an answer that is lost after the call took effect is the outcome *unknown*, or a program that ends at its next Await.
