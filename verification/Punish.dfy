/** punishLocked as it is written: local variables, early returns, one statement or
    Telegram call after another. Every method keeps `Valid`, so whatever the others do
    meanwhile, what it did is a run of the machine that all theorems speak about. */
module Punish {
  import opened Domain
  import opened Tables
  import opened Machine
  import opened Invariant
  import opened Preservation
  import opened Evolution
  import opened World
  import opened Runs
  import opened Receipts
  import opened Locked

  /** How an attempt ends: nil, a call refused in the action stage, or any other error or
      crash. */
  datatype Ending = Nil | Refusal(outcome: Outcome) | Broken

  // ---------------------------------------------------------------- where the program stands

  /** What no writer ever changes in a row. */
  predicate Fixed(p: Row, r: Row) {
    r.key == p.key && r.message == p.message && r.decision == p.decision && r.source == p.source
    && r.createdAt == p.createdAt
  }

  /** The program is at this point of the machine; p is its snapshot of the row. */
  ghost predicate Placed(h: Host, to: Proc, k: nat, p: Row)
    reads h
  {
    h.id in h.world.members && h.Sound() && h.at == to && k < |h.Rows()| && Fixed(p, h.Rows()[k])
  }

  /** Between two statements, with no answer left unused. */
  ghost predicate Standing(h: Host, to: Proc, k: nat, p: Row)
    reads h
  {
    Placed(h, to, k, p) && h.Valid() && h.at == to
  }

  method Pause(h: Host, ghost k: nat, ghost p: Row) returns (env: Option<Env>)
    requires Standing(h, h.at, k, p) && h.at != Idle
    modifies h`world, h`script, h`log, h`at, h`heard
    ensures h.heard == env && Grows(old(h.log), h.log)
    ensures env.Some? ==> Placed(h, old(h.at), k, p)
    ensures env.None? ==> h.Valid() && h.at == Idle && h.script == []
  {
    env := h.Await();
  }

  /** An update of the row itself. */
  method Mark(h: Host, k: nat, ghost p: Row, r: Row, ghost env: Env, ghost to: Proc)
    requires Placed(h, h.at, k, p) && h.heard == Some(env) && Fixed(p, r)
    requires h.StepOf(env) == (h.Current().(rows := h.Rows()[k := r], proc := to), Quiet)
    modifies h`world, h`log, h`at, h`heard
    ensures Standing(h, to, k, p) && h.Rows()[k] == r && h.world.now == old(h.world.now) && Grows(old(h.log), h.log)
  {
    hide Next;
    h.Write(h.Rows()[k := r], h.Sessions(), env, to);
  }

  /** A test or read. */
  method Pass(h: Host, k: nat, ghost p: Row, ghost env: Env, ghost to: Proc)
    requires Placed(h, h.at, k, p) && h.heard == Some(env)
    requires h.StepOf(env) == (h.Current().(proc := to), Quiet)
    modifies h`world, h`log, h`at, h`heard
    ensures Standing(h, to, k, p) && h.Rows() == old(h.Rows()) && h.world.now == old(h.world.now) && Grows(old(h.log), h.log)
  {
    hide Next;
    h.Write(h.Rows(), h.Sessions(), env, to);
  }

  /** A call on behalf of the punishment; `r` is the row with its history. */
  method Tell(h: Host, k: nat, ghost p: Row, c: Call, env: Env, r: Row, ghost to: Proc) returns (o: Outcome)
    requires Placed(h, h.at, k, p) && h.heard == Some(env) && Fixed(p, r)
    requires h.StepOf(env) == (h.Current().(rows := h.Rows()[k := r], proc := to), Sent(FromPunishment(k), c, env.outcome))
    modifies h`world, h`log, h`at, h`heard, h`calls
    ensures Standing(h, to, k, p) && o == env.outcome && h.calls == old(h.calls) + [Sent(FromPunishment(k), c, o)]
    ensures Grows(old(h.log), h.log)
  {
    hide Next;
    o := h.Send(FromPunishment(k), c, env, h.Rows()[k := r], to);
  }

  /** What a refused call leaves: the deferred rejection, or nothing. */
  function Refuse(run: Run, o: Outcome): Proc {
    if o == Rejected && !run.mayHaveActed then Punishing(run.(pc := Reject)) else Idle
  }

  function ReturnTo(caller: Option<Snapshot>): Proc {
    if caller.None? then Idle else Finishing(caller.value, SelfDone)
  }

  function EnterTo(run: Run, r: Row, now: int): Proc {
    EnterAction(Nobody, run, r, now).proc
  }

  function ApproachTo(run: Run, r: Row, now: int): Proc {
    Approach(Nobody, run, r, now).proc
  }

  /** The machine's step, by the part of punishLocked it belongs to. */
  lemma StepHere(h: Host, env: Env)
    requires h.id in h.world.members && h.at.Punishing? && h.at.run.k < |h.Rows()|
    ensures var (s, run, r) := (h.Current(), h.at.run, h.Rows()[h.at.run.k]);
      h.StepOf(env) == match run.pc
        case AddWorkflow | ReadRow | Preflight | CheckNewer | MarkSkipped =>
          (PreflightStep(h.id, h.Chat(), h.world.now, s, run, r, env), Quiet)
        case PreDelete | MarkPreDeleted => DeleteStep(h.world.now, s, run, r, env)
        case StartCall | CheckDeadline | MarkFailed => (StartStep(h.Chat(), h.world.now, s, run, r), Quiet)
        case MainCall => DoMainCall(h.world.now, s, run, r, env)
        case KickRead | KickBan | KickMark | KickUnban | KickConfirm => KickStep(s, run, r, env)
        case Complete => (DoComplete(h.Chat(), s, run, r), Quiet)
        case BanDelete | MarkBanDeleted | Notify | MarkDone | Reject => TailStep(s, run, r, env)
        case SenderDelete | SenderMark | SenderNotice | SenderAct => SenderStep(s, run, r, env)
    ensures h.Rows()[h.at.run.k := h.Rows()[h.at.run.k]] == h.Rows()
  {
    hide PreflightStep, DeleteStep, StartStep, DoMainCall, KickStep, DoComplete, TailStep, SenderStep;
  }

  /** The punishment is finished and the program has returned. */
  ghost predicate Closed(h: Host, caller: Option<Snapshot>, k: nat, p: Row)
    reads h
  {
    h.Valid() && h.at == ReturnTo(caller) && k < |h.Rows()| && Fixed(p, h.Rows()[k])
    && (h.Rows()[k].status == PunishmentStatus.Done || h.Rows()[k].status == Skipped)
  }

  /** What the invariant says of the row at the program's place. */
  lemma HereKnown(h: Host, k: nat, p: Row)
    requires Placed(h, h.at, k, p) && h.at.Punishing? && h.at.run.k == k
    ensures RowInv(h.id.user, h.Chat().epoch, h.world.now, h.Rows()[k])
    ensures PastRead(h.at.run.pc) ==> PunishInv(h.id.user, h.world.now, h.Rows()[k], h.at.run)
  {
    hide *;
    HereIs(h, k, p);
    h.Known();
    Facts(h.id.user, h.Chat().epoch, h.world.now, h.Current());
  }

  lemma HereIs(h: Host, k: nat, p: Row)
    requires Placed(h, h.at, k, p) && h.at.Punishing? && h.at.run.k == k
    ensures h.Sound() && h.id in h.world.members
    ensures k < |h.Rows()| && h.Current().proc == h.at && h.Current().rows == h.Rows()
  {
  }

  /** A started action is written ahead, a finished call is remembered, and so on. */
  lemma PlaceKnown(h: Host, k: nat, p: Row)
    requires Placed(h, h.at, k, p) && h.at.Punishing? && h.at.run.k == k && PastRead(h.at.run.pc)
    ensures var (r, pc) := (h.Rows()[k], h.at.run.pc);
      && (r.status == Pending || r.status == Skipped)
      && (pc == MainCall || pc == KickRead ==> WrittenAhead(p, r))
      && (pc == KickUnban ==> r.kickBanned)
      && (pc == Complete ==> (Permission(p.decision.action) ==> r.sent) && (p.decision.action == Kick ==> r.unbanned))
      && (pc == BanDelete || pc == Notify ==> (r.status == Pending ==> r.acted))
  {
    hide h.Sound, RowInv;
    HereKnown(h, k, p);
  }

  /** The intent is stored before the call, with the release of a mute that ends by itself. */
  predicate WrittenAhead(p: Row, r: Row) {
    Permission(p.decision.action) ==> r.started && (TimedMute(p.decision) ==> r.releaseNeeded)
  }

  lemma FixedDeleted(p: Row, r: Row)
    requires Fixed(p, r)
    ensures Fixed(p, StepDeleted(r))
  {
    if r.status == Pending {
      assert StepDeleted(r) == r.(deleted := true);
    } else {
      assert StepDeleted(r) == r;
    }
  }

  lemma FixedActed(p: Row, r: Row)
    requires Fixed(p, r)
    ensures Fixed(p, StepActed(r))
  {
    if r.status == Pending {
      assert StepActed(r) == r.(acted := true);
    } else {
      assert StepActed(r) == r;
    }
  }

  lemma FixedNoted(p: Row, r: Row, o: Outcome, u: Option<int>)
    requires Fixed(p, r)
    ensures Fixed(p, Noted(r, o, u))
  {
    if o == Rejected {
      assert Noted(r, o, u) == r;
    } else {
      assert Noted(r, o, u) == r.(sent := true, settled := false, until := Noted(r, o, u).until);
    }
  }

  lemma FixedStarted(g: Group, p: Row, r: Row)
    requires Fixed(p, r)
    ensures Until(p) == Until(r)
    ensures StartPermission(g, r, Until(p)).Some? ==> Fixed(p, StartPermission(g, r, Until(p)).value)
  {
  }

  // ---------------------------------------------------------------- the calls of an attempt

  function One(k: nat, c: Call): seq<Effect> { [Sent(FromPunishment(k), c, Accepted)] }

  /** Deleted before the action, unless the punishment is a ban. */
  function DeleteCalls(k: nat, p: Row): seq<Effect> {
    if p.decision.delete && p.decision.action != Ban && !p.deleted && p.message > 0 then One(k, DeleteMessage) else []
  }

  function MainCalls(k: nat, p: Row): seq<Effect> {
    if Carrier(p).Some? then One(k, Carrier(p).value) else []
  }

  function BanCalls(k: nat, banned: bool): seq<Effect> {
    if banned then [] else One(k, BanMember)
  }

  /** `banned` says that an earlier attempt got through the ban of a kick. */
  function ActionCalls(k: nat, p: Row, banned: bool): seq<Effect> {
    if p.acted then []
    else if p.decision.action == Kick then BanCalls(k, banned) + One(k, UnbanMember)
    else MainCalls(k, p)
  }

  predicate DeletesLast(p: Row) {
    p.decision.action == Ban && p.message > 0 && !p.deleted
  }

  function LastCalls(k: nat, p: Row): seq<Effect> {
    if DeletesLast(p) then One(k, DeleteMessage) else []
  }

  function NoticeCalls(k: nat, told: bool): seq<Effect> {
    if told then One(k, Notice) else []
  }

  /** Every call that an attempt starting from this row needs, in order. */
  function Programme(k: nat, p: Row, banned: bool, told: bool): seq<Effect> {
    DeleteCalls(k, p) + (ActionCalls(k, p, banned) + (LastCalls(k, p) + NoticeCalls(k, told)))
  }

  /** A repeated advertisement is always announced, a review unless an administrator was faster. */
  predicate Announces(p: Row, told: bool) {
    (p.decision.reason == RepeatedAd ==> told)
    && (told ==> p.decision.reason == RepeatedAd || p.decision.reason == LocalAdReview)
  }

  /** The calls since are those of an attempt, all of them or as far as it got. */
  predicate Programmed(k: nat, p: Row, before: seq<Effect>, after: seq<Effect>, whole: bool) {
    exists banned: bool, told: bool :: Carried(before, after, Programme(k, p, banned, told), whole) && Announces(p, told)
  }

  /** A channel identity only loses its message and is warned. */
  function SenderProgramme(k: nat, p: Row): seq<Effect> {
    if p.decision.action != Warn && p.decision.action != Delete then []
    else SenderDeletes(k, p) + SenderWarns(k, p)
  }

  function SenderDeletes(k: nat, p: Row): seq<Effect> {
    if !p.deleted && (p.decision.delete || p.decision.action == Delete) then One(k, DeleteMessage) else []
  }

  function SenderWarns(k: nat, p: Row): seq<Effect> {
    if p.decision.action == Warn && !p.acted then One(k, Notice) else []
  }

  // ---------------------------------------------------------------- deleting the message

  predicate Deleting(pc: PunishPc) {
    pc == PreDelete || pc == BanDelete || pc == SenderDelete
  }

  /** After an acknowledged delete, and after any other answer. */
  function DeletedTo(run: Run): Proc {
    if run.pc == PreDelete then Punishing(run.(pc := MarkPreDeleted, mayHaveActed := true))
    else Punishing(run.(pc := if run.pc == BanDelete then MarkBanDeleted else SenderMark))
  }

  function NotDeletedTo(run: Run, o: Outcome): Proc {
    if run.pc == SenderDelete then Idle else Refuse(run, o)
  }

  /** After the row says so. */
  function RecordedTo(run: Run, p: Row, now: int): Proc {
    if run.pc == MarkPreDeleted then ApproachTo(run, p, now)
    else if run.pc == MarkBanDeleted then Punishing(run.(pc := Notify))
    else Punishing(run.(pc := if p.decision.action == Warn && !run.acted0 then SenderNotice else MarkDone))
  }

  method TryDelete(h: Host, k: nat, ghost p: Row, ghost run: Run) returns (o: Option<Outcome>)
    requires run.k == k && Deleting(run.pc) && Standing(h, Punishing(run), k, p)
    modifies h
    ensures h.Valid() && Grows(old(h.log), h.log)
    ensures o == Some(Accepted) ==> Standing(h, DeletedTo(run), k, p)
    ensures o.Some? && o != Some(Accepted) ==> Standing(h, NotDeletedTo(run, o.value), k, p)
    ensures o.None? ==> h.at == Idle
    ensures Carried(old(h.calls), h.calls, One(k, DeleteMessage), o == Some(Accepted))
  {
    GrowsOn();
    hide Grows, Next, Inv, Exec, With, CallsOf, Played, h.Sound, h.Scripted, Carried, PreflightStep, StartStep,
         DoMainCall, KickStep, DoComplete;
    NoneCarried(h.calls, One(k, DeleteMessage));
    var env := Pause(h, k, p);
    if env.None? {
      return None;
    }
    StepHere(h, env.value);
    var answer := Tell(h, k, p, DeleteMessage, env.value, h.Rows()[k],
                       if env.value.outcome == Accepted then DeletedTo(run) else NotDeletedTo(run, env.value.outcome));
    OneCarried(old(h.calls), FromPunishment(k), DeleteMessage, answer);
    o := Some(answer);
  }

  method RecordDeleted(h: Host, k: nat, ghost p: Row, ghost run: Run) returns (ok: bool)
    requires run.k == k && (run.pc == MarkPreDeleted || run.pc == MarkBanDeleted || run.pc == SenderMark)
    requires Standing(h, Punishing(run), k, p)
    modifies h`world, h`script, h`log, h`at, h`heard
    ensures h.Valid() && Grows(old(h.log), h.log)
    ensures ok ==> Standing(h, RecordedTo(run, p, h.world.now), k, p)
    ensures !ok ==> h.at == Idle
  {
    GrowsOn();
    hide Grows, Next, Inv, Exec, With, CallsOf, Played, h.Sound, h.Scripted, PreflightStep, StartStep, DoMainCall,
         KickStep, DoComplete;
    var env := Pause(h, k, p);
    if env.None? {
      return false;
    }
    StepHere(h, env.value);
    FixedDeleted(p, h.Rows()[k]);
    Mark(h, k, p, StepDeleted(h.Rows()[k]), env.value, RecordedTo(run, p, h.world.now));
    ok := true;
  }

  // ---------------------------------------------------------------- before the action

  lemma PreflightHere(h: Host, env: Env, p: Row)
    requires h.id in h.world.members && h.at.Punishing? && h.at.run.k < |h.Rows()| && Fixed(p, h.Rows()[h.at.run.k])
    requires h.at.run.pc == PunishPc.Preflight || h.at.run.pc == CheckNewer
    ensures var (s, run) := (h.Current(), h.at.run);
      h.StepOf(env) == (s.(proc :=
        if run.pc == CheckNewer then
          if NewerManual(h.Rows(), p.createdAt) then Punishing(run.(pc := MarkSkipped)) else EnterTo(run, p, h.world.now)
        else if env.protected && p.decision.action != Unmute && p.decision.action != Unban then Punishing(run.(pc := MarkSkipped))
        else if p.source == Automatic || p.source == Manual || p.source == Review then Punishing(run.(pc := CheckNewer))
        else EnterTo(run, p, h.world.now)), Quiet)
  {
    hide Next;
    StepHere(h, env);
  }

  lemma EnterIgnoresPc(run: Run, pc: PunishPc, r: Row, now: int)
    ensures EnterTo(run.(pc := pc), r, now) == EnterTo(run, r, now)
  {
  }

  method Skip(h: Host, k: nat, p: Row, ghost run: Run) returns (e: Ending)
    requires run.k == k && Standing(h, Punishing(run.(pc := MarkSkipped)), k, p)
    modifies h`world, h`script, h`log, h`at, h`heard
    ensures h.Valid() && Grows(old(h.log), h.log)
    ensures e == Nil ==> Closed(h, run.caller, k, p)
    ensures e != Nil ==> e == Broken && h.at == Idle
  {
    GrowsOn();
    hide Grows, Next, Inv, Exec, With, CallsOf, Played, h.Sound, h.Scripted, DeleteStep, StartStep, DoMainCall,
         KickStep, DoComplete, TailStep, SenderStep;
    var env := Pause(h, k, p);
    if env.None? {
      return Broken;
    }
    StepHere(h, env.value);
    PlaceKnown(h, k, p);
    Mark(h, k, p, StepSkipped(h.Rows()[k]), env.value, ReturnTo(run.caller));
    e := Nil;
  }

  /** Membership, protection and newer manual work; `go` means that the action stage begins. */
  method Preflight(h: Host, k: nat, p: Row, ghost run: Run) returns (go: bool, e: Ending)
    requires run.k == k && Standing(h, Punishing(run.(pc := PunishPc.Preflight)), k, p)
    modifies h`world, h`script, h`log, h`at, h`heard
    ensures h.Valid() && Grows(old(h.log), h.log)
    ensures go ==> Standing(h, EnterTo(run, p, h.world.now), k, p)
    ensures !go && e == Nil ==> Closed(h, run.caller, k, p)
    ensures !go && e != Nil ==> e == Broken && h.at == Idle
  {
    GrowsOn();
    hide Grows, Next, Inv, Exec, With, CallsOf, Played, h.Sound, h.Scripted, EnterTo, PreflightStep, NewerManual;
    go, e := false, Broken;
    var env := Pause(h, k, p);
    if env.None? {
      return;
    }
    PreflightHere(h, env.value, p);
    if env.value.protected && p.decision.action != Unmute && p.decision.action != Unban {
      Pass(h, k, p, env.value, Punishing(run.(pc := MarkSkipped)));
      e := Skip(h, k, p, run);
      return;
    }
    if p.source == Automatic || p.source == Manual || p.source == Review {
      Pass(h, k, p, env.value, Punishing(run.(pc := CheckNewer)));
      env := Pause(h, k, p);
      if env.None? {
        return;
      }
      PreflightHere(h, env.value, p);
      if NewerManual(h.Rows(), p.createdAt) {
        Pass(h, k, p, env.value, Punishing(run.(pc := MarkSkipped)));
        e := Skip(h, k, p, run);
        return;
      }
    }
    EnterIgnoresPc(run, h.at.run.pc, p, h.world.now);
    Pass(h, k, p, env.value, EnterTo(run, p, h.world.now));
    go := true;
  }

  lemma EnterDeletes(run: Run, p: Row, now: int)
    ensures EnterTo(run, p, now) ==
      if p.decision.delete && p.decision.action != Ban && !run.deleted0 && p.message > 0
      then Punishing(run.(pc := PreDelete)) else ApproachTo(run, p, now)
    ensures forall pc :: ApproachTo(run.(pc := pc), p, now) == ApproachTo(run, p, now)
  {
  }

  /** Deletes the message first, unless the punishment is a ban. */
  method DeleteFirst(h: Host, k: nat, p: Row, before: bool, ghost run: Run) returns (e: Ending, mayHaveActed: bool, ghost run': Run)
    requires run.k == k && run.deleted0 == p.deleted && run.mayHaveActed == before && Standing(h, EnterTo(run, p, h.world.now), k, p)
    modifies h
    ensures h.Valid() && Grows(old(h.log), h.log)
    ensures run' == run.(mayHaveActed := mayHaveActed) && (before ==> mayHaveActed)
    ensures e == Nil ==> Standing(h, ApproachTo(run', p, h.world.now), k, p)
    ensures e == Nil && p.decision.delete && p.decision.action != Ban && p.message > 0 && !p.deleted ==> run'.mayHaveActed
    ensures e.Refusal? ==> Standing(h, Refuse(run', e.outcome), k, p)
    ensures e == Broken ==> h.at == Idle
    ensures Carried(old(h.calls), h.calls, DeleteCalls(k, p), e == Nil)
  {
    GrowsOn();
    hide Placed, Grows, Next, Inv, Exec, With, CallsOf, Played, h.Sound, h.Scripted, EnterTo, ApproachTo, Carried,
         PreflightStep, DeleteStep, StartStep, DoMainCall, KickStep, DoComplete, TailStep, SenderStep;
    EnterDeletes(run, p, h.world.now);
    run', mayHaveActed := run, before;
    NoneCarried(h.calls, []);
    if p.decision.delete && p.decision.action != Ban && !p.deleted && p.message > 0 {
      var o := TryDelete(h, k, p, run.(pc := PreDelete));
      if o != Some(Accepted) {
        e := if o.Some? then Refusal(o.value) else Broken;
        return;
      }
      WholeCarried(old(h.calls), h.calls, One(k, DeleteMessage));
      run', mayHaveActed := run.(mayHaveActed := true), true;
      var ok := RecordDeleted(h, k, p, run'.(pc := MarkPreDeleted));
      if !ok {
        e := Broken;
        return;
      }
      EnterDeletes(run', p, h.world.now);
    }
    e := Nil;
  }

  // ---------------------------------------------------------------- the action

  /** The mute's time is over: the punishment fails without a call. */
  method GiveUp(h: Host, k: nat, p: Row, ghost run: Run) returns (e: Ending)
    requires run.k == k && Standing(h, Punishing(run.(pc := MarkFailed)), k, p)
    modifies h`world, h`script, h`log, h`at, h`heard
    ensures h.Valid() && h.at == Idle && e == Broken && Grows(old(h.log), h.log)
  {
    GrowsOn();
    hide Grows, Next, Inv, Exec, With, CallsOf, Played, h.Sound, h.Scripted, PreflightStep, DeleteStep, DoMainCall,
         KickStep, DoComplete, TailStep, SenderStep;
    e := Broken;
    var env := Pause(h, k, p);
    if env.Some? {
      StepHere(h, env.value);
      Mark(h, k, p, FailPunishment(h.Rows()[k]), env.value, Idle);
    }
  }

  /** The deadline test of a timed mute, after the write-ahead commit. */
  method CheckTime(h: Host, k: nat, p: Row, ghost run: Run) returns (e: Ending, seconds: nat)
    requires run.k == k && Standing(h, Punishing(run.(pc := CheckDeadline)), k, p)
    modifies h`world, h`script, h`log, h`at, h`heard
    ensures h.Valid() && Grows(old(h.log), h.log)
    ensures e == Nil ==> Standing(h, Punishing(run.(pc := MainCall, seconds := seconds)), k, p)
    ensures e == Nil ==> 0 < seconds == Seconds(Deadline(p) - h.world.now)
    ensures e != Nil ==> e == Broken && h.at == Idle
    ensures e == Nil ==> WrittenAhead(p, h.Rows()[k])
  {
    GrowsOn();
    hide Grows, Next, Inv, Exec, With, CallsOf, Played, h.Sound, h.Scripted, Seconds, PreflightStep, DeleteStep,
         DoMainCall, KickStep, DoComplete, TailStep, SenderStep;
    seconds := 0;
    var env := Pause(h, k, p);
    if env.None? {
      return Broken, 0;
    }
    StepHere(h, env.value);
    var left := Seconds(Deadline(p) - h.world.now);
    if left <= 0 {
      Pass(h, k, p, env.value, Punishing(run.(pc := MarkFailed)));
      e := GiveUp(h, k, p, run);
      return;
    }
    seconds := left;
    Pass(h, k, p, env.value, Punishing(run.(pc := MainCall, seconds := seconds)));
    AheadKnown(h, k, p);
    e := Nil;
  }

  /** The write-ahead commit; `seconds` is how long a timed mute still lasts. */
  method Start(h: Host, k: nat, p: Row, ghost run: Run) returns (e: Ending, seconds: nat)
    requires run.k == k && run.seconds == 0 && Standing(h, Punishing(run.(pc := StartCall)), k, p)
    modifies h`world, h`script, h`log, h`at, h`heard
    ensures h.Valid() && Grows(old(h.log), h.log)
    ensures e == Nil ==> Standing(h, StartedTo(run, p, seconds), k, p)
    ensures e == Nil ==> (TimedMute(p.decision) <==> seconds > 0)
    ensures e == Nil && TimedMute(p.decision) ==> seconds == Seconds(Deadline(p) - h.world.now)
    ensures e != Nil ==> e == Broken && h.at == Idle
    ensures e == Nil ==> WrittenAhead(p, h.Rows()[k])
  {
    GrowsOn();
    hide Grows, Seconds, Deadline, Placed, WrittenAhead, h.Sound;
    e, seconds := Broken, 0;
    var ok := CommitStart(h, k, p, run);
    if !ok {
      return;
    }
    e := Nil;
    if TimedMute(p.decision) {
      e, seconds := CheckTime(h, k, p, run);
    } else {
      AheadKnown(h, k, p);
    }
  }

  lemma AheadKnown(h: Host, k: nat, p: Row)
    requires Standing(h, h.at, k, p) && h.at.Punishing? && h.at.run.k == k
    requires h.at.run.pc == MainCall || h.at.run.pc == KickRead
    ensures WrittenAhead(p, h.Rows()[k])
  {
    hide h.Sound;
    PlaceKnown(h, k, p);
  }

  method CommitStart(h: Host, k: nat, p: Row, ghost run: Run) returns (ok: bool)
    requires run.k == k && Standing(h, Punishing(run.(pc := StartCall)), k, p)
    modifies h`world, h`script, h`log, h`at, h`heard
    ensures h.Valid() && Grows(old(h.log), h.log)
    ensures ok ==> Standing(h, Punishing(run.(pc := CommittedPc(p))), k, p)
    ensures !ok ==> h.at == Idle
  {
    GrowsOn();
    hide Grows, Next, Inv, Exec, With, CallsOf, Played, h.Sound, h.Scripted, StartPermission, Until, PreflightStep,
         DeleteStep, DoMainCall, KickStep, DoComplete, TailStep, SenderStep;
    ok := false;
    var env := Pause(h, k, p);
    if env.None? {
      return;
    }
    StepHere(h, env.value);
    FixedStarted(h.Chat(), p, h.Rows()[k]);
    var started := StartPermission(h.Chat(), h.Rows()[k], Until(p));
    if started.None? {
      Pass(h, k, p, env.value, Idle);
      return;
    }
    Mark(h, k, p, started.value, env.value, Punishing(run.(pc := CommittedPc(p))));
    ok := true;
  }

  function CommittedPc(p: Row): PunishPc {
    if p.decision.action == Kick then KickRead else if TimedMute(p.decision) then CheckDeadline else MainCall
  }

  function StartedTo(run: Run, p: Row, seconds: nat): Proc {
    Punishing(run.(pc := if p.decision.action == Kick then KickRead else MainCall, seconds := seconds))
  }

  /** The row after the call, and where the program goes. */
  function CalledRow(r: Row, c: Call, o: Outcome, until: Option<int>): Row {
    if PermissionCall(c) then Noted(r, o, until) else r
  }

  function CalledTo(run: Run, c: Call, o: Outcome): Proc {
    if o == Accepted then Punishing(run.(pc := Complete, mayHaveActed := true))
    else if c == Notice then Idle
    else Refuse(run, o)
  }

  lemma CallHere(h: Host, k: nat, p: Row, run: Run, env: Env)
    requires run.k == k && Placed(h, Punishing(run.(pc := MainCall)), k, p)
    ensures MainCallOf(p).None? ==>
      h.StepOf(env) == (h.Current().(proc := Punishing(run.(pc := Complete, mayHaveActed := true))), Quiet)
    ensures MainCallOf(p).Some? ==>
      var c := MainCallOf(p).value;
      var r := CalledRow(h.Rows()[k], c, env.outcome, UntilDate(h.world.now, run.seconds));
      Fixed(p, r) && h.StepOf(env) == (h.Current().(rows := h.Rows()[k := r], proc := CalledTo(run, c, env.outcome)),
                                       Sent(FromPunishment(k), c, env.outcome))
  {
    hide Next, h.Sound, Noted, UntilDate, PreflightStep, DeleteStep, StartStep, KickStep, DoComplete, TailStep, SenderStep;
    StepHere(h, env);
    FixedNoted(p, h.Rows()[k], env.outcome, UntilDate(h.world.now, run.seconds));
    assert h.Current().(rows := h.Rows()) == h.Current();
  }

  /** The call that carries the action out; a delete that has happened already needs none. */
  method CallOnce(h: Host, k: nat, p: Row, seconds: nat, ghost run: Run) returns (e: Ending)
    requires run.k == k && run.seconds == seconds && Standing(h, Punishing(run.(pc := MainCall)), k, p)
    modifies h
    ensures h.Valid() && Grows(old(h.log), h.log)
    ensures e == Nil ==> Standing(h, Punishing(run.(pc := Complete, mayHaveActed := true)), k, p)
    ensures e.Refusal? ==> Standing(h, Refuse(run, e.outcome), k, p)
    ensures e == Broken ==> h.at == Idle
    ensures e == Nil ==> (Permission(p.decision.action) ==> h.Rows()[k].sent)
    ensures Carried(old(h.calls), h.calls, MainCalls(k, p), e == Nil)
    ensures e.Refusal? ==>
      && Carrier(p).Some? && e.outcome != Accepted
      && h.calls == old(h.calls) + [Sent(FromPunishment(k), Carrier(p).value, e.outcome)]
  {
    GrowsOn();
    hide Grows, Next, Inv, Exec, With, CallsOf, Played, h.Sound, h.Scripted, Carried, UntilDate, CalledRow, MainCallOf, Carrier,
         PreflightStep, DeleteStep, StartStep, DoMainCall, KickStep, DoComplete, TailStep, SenderStep, Fixed;
    CarrierIsCalled(p);
    NoneCarried(h.calls, MainCalls(k, p));
    var env := Pause(h, k, p);
    if env.None? {
      return Broken;
    }
    CallHere(h, k, p, run, env.value);
    var c := MainCallOf(p);
    if c.None? {
      Pass(h, k, p, env.value, Punishing(run.(pc := Complete, mayHaveActed := true)));
      SentKnown(h, k, p);
      return Nil;
    }
    var r := CalledRow(h.Rows()[k], c.value, env.value.outcome, UntilDate(h.world.now, seconds));
    var o := Tell(h, k, p, c.value, env.value, r, CalledTo(run, c.value, env.value.outcome));
    OneCarried(old(h.calls), FromPunishment(k), c.value, o);
    if o == Accepted {
      SentKnown(h, k, p);
      e := Nil;
    } else {
      e := if c.value == Notice then Broken else Refusal(o);
    }
  }

  lemma SentKnown(h: Host, k: nat, p: Row)
    requires Standing(h, h.at, k, p) && h.at.Punishing? && h.at.run.k == k && h.at.run.pc == Complete
    ensures Permission(p.decision.action) ==> h.Rows()[k].sent
  {
    hide h.Sound;
    PlaceKnown(h, k, p);
  }

  lemma KickReadHere(h: Host, k: nat, p: Row, run: Run, env: Env)
    requires run.k == k && Placed(h, Punishing(run.(pc := KickRead)), k, p)
    ensures h.StepOf(env) == (h.Current().(proc :=
      Punishing(if h.Rows()[k].kickBanned then run.(pc := KickUnban, mayHaveActed := true) else run.(pc := KickBan))), Quiet)
  {
    hide Next, h.Sound, PreflightStep, DeleteStep, StartStep, DoMainCall, DoComplete, TailStep, SenderStep;
    StepHere(h, env);
    assert h.Current().(rows := h.Rows()) == h.Current();
  }

  /** The ban half of a kick, unless an earlier attempt got that far. */
  method BanForKick(h: Host, k: nat, p: Row, ghost run: Run) returns (e: Ending, ghost banned: bool)
    requires run.k == k && Standing(h, Punishing(run.(pc := KickRead)), k, p)
    modifies h
    ensures h.Valid() && Grows(old(h.log), h.log)
    ensures e == Nil ==> Standing(h, Punishing(run.(pc := KickUnban, mayHaveActed := true)), k, p)
    ensures e.Refusal? ==> Standing(h, Refuse(run, e.outcome), k, p)
    ensures e == Broken ==> h.at == Idle
    ensures e == Nil ==> h.Rows()[k].kickBanned
    ensures Carried(old(h.calls), h.calls, BanCalls(k, banned), e == Nil)
  {
    GrowsOn();
    hide Grows, Next, Inv, Exec, With, CallsOf, Played, h.Sound, h.Scripted, Carried, PreflightStep, DeleteStep,
         StartStep, DoMainCall, DoComplete, TailStep, SenderStep, KickStep;
    banned := false;
    NoneCarried(h.calls, One(k, BanMember));
    var env := Pause(h, k, p);
    if env.None? {
      e := Broken;
      return;
    }
    KickReadHere(h, k, p, run, env.value);
    if h.Rows()[k].kickBanned {
      Pass(h, k, p, env.value, Punishing(run.(pc := KickUnban, mayHaveActed := true)));
      e, banned := Nil, true;
      return;
    }
    Pass(h, k, p, env.value, Punishing(run.(pc := KickBan)));
    e := BanNow(h, k, p, run);
  }

  method BanNow(h: Host, k: nat, p: Row, ghost run: Run) returns (e: Ending)
    requires run.k == k && Standing(h, Punishing(run.(pc := KickBan)), k, p)
    modifies h
    ensures h.Valid() && Grows(old(h.log), h.log)
    ensures e == Nil ==> Standing(h, Punishing(run.(pc := KickUnban, mayHaveActed := true)), k, p)
    ensures e.Refusal? ==> Standing(h, Refuse(run, e.outcome), k, p)
    ensures e == Broken ==> h.at == Idle
    ensures e == Nil ==> h.Rows()[k].kickBanned
    ensures Carried(old(h.calls), h.calls, One(k, BanMember), e == Nil)
  {
    GrowsOn();
    hide Grows, Next, Inv, Exec, With, CallsOf, Played, h.Sound, h.Scripted, Noted, Carried, PreflightStep,
         DeleteStep, StartStep, DoMainCall, DoComplete, TailStep, SenderStep;
    NoneCarried(h.calls, One(k, BanMember));
    var env := Pause(h, k, p);
    if env.None? {
      return Broken;
    }
    StepHere(h, env.value);
    FixedNoted(p, h.Rows()[k], env.value.outcome, None);
    var o := Tell(h, k, p, BanMember, env.value, Noted(h.Rows()[k], env.value.outcome, None),
                  if env.value.outcome == Accepted then Punishing(run.(pc := KickMark, mayHaveActed := true))
                  else Refuse(run, env.value.outcome));
    OneCarried(old(h.calls), FromPunishment(k), BanMember, o);
    if o != Accepted {
      return Refusal(o);
    }
    e := RecordBan(h, k, p, run.(mayHaveActed := true));
  }

  method RecordBan(h: Host, k: nat, ghost p: Row, ghost run: Run) returns (e: Ending)
    requires run.k == k && Standing(h, Punishing(run.(pc := KickMark)), k, p)
    modifies h`world, h`script, h`log, h`at, h`heard
    ensures h.Valid() && Grows(old(h.log), h.log)
    ensures e == Nil ==> Standing(h, Punishing(run.(pc := KickUnban)), k, p)
    ensures e != Nil ==> e == Broken && h.at == Idle
    ensures e == Nil ==> h.Rows()[k].kickBanned
  {
    GrowsOn();
    hide Grows, Next, Inv, Exec, With, CallsOf, Played, h.Sound, h.Scripted, PreflightStep, DeleteStep, StartStep,
         DoMainCall, DoComplete, TailStep, SenderStep;
    var env := Pause(h, k, p);
    if env.None? {
      return Broken;
    }
    StepHere(h, env.value);
    Mark(h, k, p, MarkKickBanned(h.Rows()[k]), env.value, Punishing(run.(pc := KickUnban)));
    e := Nil;
  }

  /** releaseKick: the unban half ends only with a membership read that does not say `kicked`. */
  method ReleaseKick(h: Host, k: nat, p: Row, ghost run: Run) returns (e: Ending)
    requires run.k == k && run.mayHaveActed && Standing(h, Punishing(run.(pc := KickUnban)), k, p)
    modifies h
    ensures h.Valid() && Grows(old(h.log), h.log)
    ensures e == Nil ==> Standing(h, Punishing(run.(pc := Complete)), k, p)
    ensures e.Refusal? ==> Standing(h, Refuse(run, e.outcome), k, p)
    ensures e == Broken ==> h.at == Idle
    ensures e == Nil ==> h.Rows()[k].unbanned
    ensures Carried(old(h.calls), h.calls, One(k, UnbanMember), e == Nil)
  {
    GrowsOn();
    hide Grows, Next, Inv, Exec, With, CallsOf, Played, h.Sound, h.Scripted, Carried, PreflightStep, DeleteStep,
         StartStep, DoMainCall, DoComplete, TailStep, SenderStep;
    NoneCarried(h.calls, One(k, UnbanMember));
    var env := Pause(h, k, p);
    if env.None? {
      return Broken;
    }
    StepHere(h, env.value);
    var o := Tell(h, k, p, UnbanMember, env.value, h.Rows()[k],
                  if env.value.outcome == Accepted then Punishing(run.(pc := KickConfirm)) else Refuse(run, env.value.outcome));
    OneCarried(old(h.calls), FromPunishment(k), UnbanMember, o);
    if o != Accepted {
      return Refusal(o);
    }
    var ok := ConfirmRelease(h, k, p, run);
    if ok {
      e := Nil;
    } else {
      WholeCarried(old(h.calls), h.calls, One(k, UnbanMember));
      e := Broken;
    }
  }

  method ConfirmRelease(h: Host, k: nat, p: Row, ghost run: Run) returns (ok: bool)
    requires run.k == k && Standing(h, Punishing(run.(pc := KickConfirm)), k, p)
    modifies h`world, h`script, h`log, h`at, h`heard
    ensures h.Valid() && Grows(old(h.log), h.log)
    ensures ok ==> Standing(h, Punishing(run.(pc := Complete)), k, p) && h.Rows()[k].unbanned
    ensures !ok ==> h.at == Idle
  {
    GrowsOn();
    hide Grows, Next, Inv, Exec, With, CallsOf, Played, h.Sound, h.Scripted, PreflightStep, DeleteStep, StartStep,
         DoMainCall, DoComplete, TailStep, SenderStep;
    ok := false;
    var env := Pause(h, k, p);
    if env.None? {
      return;
    }
    StepHere(h, env.value);
    if env.value.chatStatus == Kicked {
      Pass(h, k, p, env.value, Idle);
      return;
    }
    Mark(h, k, p, h.Rows()[k].(unbanned := true), env.value, Punishing(run.(pc := Complete)));
    ok := true;
  }

  lemma TakeoverKeepsRow(g: Group, rows: seq<Row>, sessions: seq<Session>, k: nat)
    requires k < |rows|
    ensures var t := CompleteTakeover(g, rows, sessions, k);
      t.Some? ==> k < |t.value.0| && Fixed(rows[k], t.value.0[k])
  {
  }

  lemma AfterKnown(h: Host, k: nat, p: Row, run: Run)
    requires run.k == k && Standing(h, Punishing(run.(pc := AfterAction(run, p))), k, p)
    ensures h.Rows()[k].status == Pending ==> h.Rows()[k].acted
  {
    hide h.Valid;
    PlaceKnown(h, k, p);
  }

  /** The commit after the action. */
  method CommitAction(h: Host, k: nat, p: Row, ghost run: Run) returns (e: Ending)
    requires run.k == k && Standing(h, Punishing(run.(pc := Complete)), k, p)
    modifies h`world, h`script, h`log, h`at, h`heard
    ensures h.Valid() && Grows(old(h.log), h.log)
    ensures e == Nil ==> Standing(h, Punishing(run.(pc := AfterAction(run, p))), k, p)
    ensures e != Nil ==> e == Broken && h.at == Idle
    ensures e == Nil && h.Rows()[k].status == Pending ==> h.Rows()[k].acted
  {
    GrowsOn();
    hide Grows, Next, Inv, Exec, With, CallsOf, Played, h.Sound, h.Scripted, CompleteTakeover, PreflightStep,
         DeleteStep, StartStep, DoMainCall, KickStep, TailStep, SenderStep;
    e := Broken;
    var env := Pause(h, k, p);
    if env.None? {
      return;
    }
    StepHere(h, env.value);
    ghost var after := Punishing(run.(pc := AfterAction(run, p)));
    if Permission(p.decision.action) {
      TakeoverKeepsRow(h.Chat(), h.Rows(), h.Sessions(), k);
      var t := CompleteTakeover(h.Chat(), h.Rows(), h.Sessions(), k);
      if t.None? {
        Pass(h, k, p, env.value, Idle);
        return;
      }
      h.Write(t.value.0, t.value.1, env.value, after);
    } else {
      Mark(h, k, p, StepActed(h.Rows()[k]), env.value, after);
    }
    AfterKnown(h, k, p, run);
    e := Nil;
  }

  /** A kick is a ban and its release. */
  method KickOut(h: Host, k: nat, p: Row, before: bool, ghost run: Run)
    returns (e: Ending, mayHaveActed: bool, ghost run': Run, ghost banned: bool)
    requires run.k == k && run.mayHaveActed == before && Standing(h, Punishing(run.(pc := KickRead)), k, p)
    modifies h
    ensures h.Valid() && Grows(old(h.log), h.log) && run' == run.(mayHaveActed := mayHaveActed)
    ensures e == Nil ==> mayHaveActed && Standing(h, Punishing(run'.(pc := Complete)), k, p)
    ensures e.Refusal? ==> Standing(h, Refuse(run', e.outcome), k, p)
    ensures e == Broken ==> h.at == Idle
    ensures Carried(old(h.calls), h.calls, BanCalls(k, banned) + One(k, UnbanMember), e == Nil)
  {
    GrowsOn();
    hide *;
    run', mayHaveActed := run, before;
    e, banned := BanForKick(h, k, p, run);
    if e != Nil {
      CutCarried(old(h.calls), h.calls, BanCalls(k, banned), One(k, UnbanMember));
      return;
    }
    ghost var calls := h.calls;
    run', mayHaveActed := run.(mayHaveActed := true), true;
    e := ReleaseKick(h, k, p, run');
    ThenCarried(old(h.calls), calls, h.calls, BanCalls(k, banned), One(k, UnbanMember), e == Nil);
  }

  /** The switch over the action, if an earlier attempt has not been through it. */
  method Act(h: Host, k: nat, p: Row, before: bool, ghost run: Run)
    returns (e: Ending, mayHaveActed: bool, ghost run': Run, ghost banned: bool)
    requires run.k == k && run.mayHaveActed == before && run.acted0 == p.acted && run.started0 == p.started
    requires run.seconds == 0 && Standing(h, ApproachTo(run, p, h.world.now), k, p)
    modifies h
    ensures h.Valid() && Grows(old(h.log), h.log)
    ensures run' == run.(mayHaveActed := mayHaveActed, seconds := run'.seconds)
    ensures e == Nil ==> Standing(h, Punishing(run'.(pc := AfterAction(run', p))), k, p)
    ensures e.Refusal? ==> Standing(h, Refuse(run', e.outcome), k, p)
    ensures e == Broken ==> h.at == Idle
    ensures e == Nil && h.Rows()[k].status == Pending ==> h.Rows()[k].acted
    ensures Carried(old(h.calls), h.calls, ActionCalls(k, p, banned), e == Nil)
  {
    GrowsOn();
    hide Grows, Next, Inv, Exec, With, CallsOf, Played, h.Sound, h.Scripted, Carried, BanCalls, MainCalls, One,
         PreflightStep, DeleteStep, StartStep, DoMainCall, KickStep, DoComplete, TailStep, SenderStep;
    run', mayHaveActed, banned := run, before, false;
    NoneCarried(h.calls, ActionCalls(k, p, false));
    if p.acted {
      AfterKnown(h, k, p, run);
      e := Nil;
      return;
    }
    if TimedMute(p.decision) && !p.started && h.world.now >= Deadline(p) {
      e := GiveUp(h, k, p, run);
      return;
    }
    var seconds := 0;
    if Permission(p.decision.action) {
      e, seconds := Start(h, k, p, run);
      if e != Nil {
        return;
      }
    } else if p.decision.action != Delete && p.decision.action != Warn {
      e := Broken;
      return;
    }
    e, mayHaveActed, run', banned := CarryOut(h, k, p, before, seconds, run.(seconds := seconds));
    if e == Nil {
      e := CommitAction(h, k, p, run');
      WholeCarried(old(h.calls), h.calls, ActionCalls(k, p, banned));
    }
  }

  method CarryOut(h: Host, k: nat, p: Row, before: bool, seconds: nat, ghost run: Run)
    returns (e: Ending, mayHaveActed: bool, ghost run': Run, ghost banned: bool)
    requires run.k == k && run.mayHaveActed == before && run.seconds == seconds && !p.acted
    requires Standing(h, Punishing(run.(pc := if p.decision.action == Kick then KickRead else MainCall)), k, p)
    modifies h
    ensures h.Valid() && Grows(old(h.log), h.log) && run' == run.(mayHaveActed := mayHaveActed)
    ensures e == Nil ==> mayHaveActed && Standing(h, Punishing(run'.(pc := Complete)), k, p)
    ensures e.Refusal? ==> Standing(h, Refuse(run', e.outcome), k, p)
    ensures e == Broken ==> h.at == Idle
    ensures Carried(old(h.calls), h.calls, ActionCalls(k, p, banned), e == Nil)
  {
    GrowsOn();
    hide Grows, Next, Inv, Exec, With, CallsOf, Played, h.Sound, h.Scripted, Carried, BanCalls, MainCalls, One,
         Standing, PreflightStep, DeleteStep, StartStep, DoMainCall, KickStep, DoComplete, TailStep, SenderStep;
    run', mayHaveActed, banned := run, before, false;
    if p.decision.action == Kick {
      e, mayHaveActed, run', banned := KickOut(h, k, p, before, run);
    } else {
      e := CallOnce(h, k, p, seconds, run);
      if e == Nil {
        run', mayHaveActed := run.(mayHaveActed := true), true;
      }
    }
  }

  // ---------------------------------------------------------------- after the action

  /** A ban deletes its message last. */
  method DeleteAfterBan(h: Host, k: nat, p: Row, ghost run: Run) returns (e: Ending)
    requires run.k == k && run.deleted0 == p.deleted && Standing(h, Punishing(run.(pc := AfterAction(run, p))), k, p)
    modifies h
    ensures h.Valid() && Grows(old(h.log), h.log)
    ensures e == Nil ==> Standing(h, Punishing(run.(pc := Notify)), k, p)
    ensures e.Refusal? ==> Standing(h, Refuse(run, e.outcome), k, p)
    ensures e == Broken ==> h.at == Idle
    ensures Carried(old(h.calls), h.calls, LastCalls(k, p), e == Nil)
  {
    GrowsOn();
    hide Placed, Grows, Next, Inv, Exec, With, CallsOf, Played, h.Sound, h.Scripted, Carried, PreflightStep, DeleteStep,
         StartStep, DoMainCall, KickStep, DoComplete, TailStep, SenderStep;
    NoneCarried(h.calls, []);
    if p.decision.action == Ban && p.message > 0 && !p.deleted {
      var o := TryDelete(h, k, p, run.(pc := BanDelete));
      if o != Some(Accepted) {
        return if o.Some? then Refusal(o.value) else Broken;
      }
      WholeCarried(old(h.calls), h.calls, One(k, DeleteMessage));
      var ok := RecordDeleted(h, k, p, run.(pc := MarkBanDeleted));
      if !ok {
        return Broken;
      }
    }
    e := Nil;
  }

  method Done(h: Host, k: nat, p: Row, ghost run: Run) returns (e: Ending)
    requires run.k == k && Standing(h, Punishing(run.(pc := MarkDone)), k, p)
    modifies h`world, h`script, h`log, h`at, h`heard
    ensures h.Valid() && Grows(old(h.log), h.log)
    ensures e == Nil ==> Closed(h, run.caller, k, p)
    ensures e != Nil ==> e == Broken && h.at == Idle
  {
    GrowsOn();
    hide Grows, Next, Inv, Exec, With, CallsOf, Played, h.Sound, h.Scripted, PreflightStep, DeleteStep, StartStep,
         DoMainCall, KickStep, DoComplete, SenderStep;
    var env := Pause(h, k, p);
    if env.None? {
      return Broken;
    }
    StepHere(h, env.value);
    PlaceKnown(h, k, p);
    Mark(h, k, p, StepDone(h.Rows()[k]), env.value, ReturnTo(run.caller));
    e := Nil;
  }

  /** The public notice, and the end. */
  method NotifyAndFinish(h: Host, k: nat, p: Row, ghost run: Run) returns (e: Ending, ghost told: bool)
    requires run.k == k && Standing(h, Punishing(run.(pc := Notify)), k, p)
    modifies h
    ensures h.Valid() && Grows(old(h.log), h.log)
    ensures e == Nil ==> Closed(h, run.caller, k, p)
    ensures e != Nil ==> e == Broken && h.at == Idle
    ensures Announces(p, told) && Carried(old(h.calls), h.calls, NoticeCalls(k, told), e == Nil)
  {
    GrowsOn();
    hide *;
    e, told := Announce(h, k, p, run);
    if e == Nil {
      e := Done(h, k, p, run);
      WholeCarried(old(h.calls), h.calls, NoticeCalls(k, told));
    }
  }

  method Announce(h: Host, k: nat, p: Row, ghost run: Run) returns (e: Ending, ghost told: bool)
    requires run.k == k && Standing(h, Punishing(run.(pc := Notify)), k, p)
    modifies h
    ensures h.Valid() && Grows(old(h.log), h.log)
    ensures e == Nil ==> Standing(h, Punishing(run.(pc := MarkDone)), k, p)
    ensures e != Nil ==> e == Broken && h.at == Idle
    ensures Announces(p, told) && Carried(old(h.calls), h.calls, NoticeCalls(k, told), e == Nil)
  {
    GrowsOn();
    hide Grows, Next, Inv, Exec, With, CallsOf, Played, h.Sound, h.Scripted, NewerManual, Carried, PreflightStep,
         DeleteStep, StartStep, DoMainCall, KickStep, DoComplete, SenderStep;
    e, told := Broken, p.decision.reason == RepeatedAd;
    NoneCarried(h.calls, NoticeCalls(k, told));
    NoneCarried(h.calls, []);
    var env := Pause(h, k, p);
    if env.None? {
      return;
    }
    StepHere(h, env.value);
    if p.decision.reason == RepeatedAd || (p.decision.reason == LocalAdReview && !NewerManual(h.Rows(), p.createdAt)) {
      told := true;
      var o := Tell(h, k, p, Notice, env.value, h.Rows()[k],
                    if env.value.outcome == Accepted then Punishing(run.(pc := MarkDone)) else Idle);
      OneCarried(old(h.calls), FromPunishment(k), Notice, o);
      if o == Accepted {
        e := Nil;
      }
    } else {
      told := false;
      Pass(h, k, p, env.value, Punishing(run.(pc := MarkDone)));
      e := Nil;
    }
  }

  // ---------------------------------------------------------------- channel identities

  /** punishSenderChat. */
  method PunishSender(h: Host, k: nat, p: Row, ghost run: Run) returns (e: Ending)
    requires run.k == k && run.deleted0 == p.deleted && run.acted0 == p.acted
    requires Standing(h, SenderTo(run, p), k, p)
    modifies h
    ensures h.Valid() && Grows(old(h.log), h.log)
    ensures e == Nil ==> Closed(h, run.caller, k, p)
    ensures e != Nil ==> e == Broken && h.at == Idle
    ensures Carried(old(h.calls), h.calls, SenderProgramme(k, p), e == Nil)
  {
    GrowsOn();
    hide Grows, Next, Inv, Exec, With, CallsOf, Played, h.Sound, h.Scripted, Carried, One, Closed,
         MainCallOf, ActionCalls, PreflightStep, DeleteStep, StartStep, DoMainCall, KickStep, DoComplete, TailStep,
         SenderStep;
    e := Broken;
    NoneCarried(h.calls, []);
    if p.decision.action != Warn && p.decision.action != Delete {
      return;
    }
    if !p.deleted && (p.decision.delete || p.decision.action == Delete) {
      e := DeleteForSender(h, k, p, run);
      if e != Nil {
        CutCarried(old(h.calls), h.calls, SenderDeletes(k, p), SenderWarns(k, p));
        return;
      }
    }
    ghost var calls := h.calls;
    NoneCarried(h.calls, []);
    if p.decision.action == Warn && !p.acted {
      e := WarnSender(h, k, p, run);
      if e != Nil {
        ThenCarried(old(h.calls), calls, h.calls, SenderDeletes(k, p), SenderWarns(k, p), false);
        return;
      }
    }
    ThenCarried(old(h.calls), calls, h.calls, SenderDeletes(k, p), SenderWarns(k, p), true);
    WholeCarried(old(h.calls), h.calls, SenderProgramme(k, p));
    e := Done(h, k, p, run);
  }

  function SenderTo(run: Run, p: Row): Proc {
    if p.decision.action != Warn && p.decision.action != Delete then Idle
    else if !p.deleted && (p.decision.delete || p.decision.action == Delete) then Punishing(run.(pc := SenderDelete))
    else AfterDeleteTo(run, p)
  }

  function AfterDeleteTo(run: Run, p: Row): Proc {
    Punishing(run.(pc := if p.decision.action == Warn && !p.acted then SenderNotice else MarkDone))
  }

  method DeleteForSender(h: Host, k: nat, p: Row, ghost run: Run) returns (e: Ending)
    requires run.k == k && run.acted0 == p.acted && Standing(h, Punishing(run.(pc := SenderDelete)), k, p)
    modifies h
    ensures h.Valid() && Grows(old(h.log), h.log)
    ensures e == Nil ==> Standing(h, AfterDeleteTo(run, p), k, p)
    ensures e != Nil ==> e == Broken && h.at == Idle
    ensures Carried(old(h.calls), h.calls, One(k, DeleteMessage), e == Nil)
  {
    GrowsOn();
    hide Placed, Grows, Next, Inv, Exec, With, CallsOf, Played, h.Sound, h.Scripted, Carried, PreflightStep, DeleteStep,
         StartStep, DoMainCall, KickStep, DoComplete, TailStep, SenderStep;
    e := Broken;
    var o := TryDelete(h, k, p, run.(pc := SenderDelete));
    if o != Some(Accepted) {
      return;
    }
    WholeCarried(old(h.calls), h.calls, One(k, DeleteMessage));
    var ok := RecordDeleted(h, k, p, run.(pc := SenderMark));
    if ok {
      e := Nil;
    }
  }

  method WarnSender(h: Host, k: nat, p: Row, ghost run: Run) returns (e: Ending)
    requires run.k == k && Standing(h, Punishing(run.(pc := SenderNotice)), k, p)
    modifies h
    ensures h.Valid() && Grows(old(h.log), h.log)
    ensures e == Nil ==> Standing(h, Punishing(run.(pc := MarkDone)), k, p)
    ensures e != Nil ==> e == Broken && h.at == Idle
    ensures Carried(old(h.calls), h.calls, One(k, Notice), e == Nil)
  {
    GrowsOn();
    hide Grows, Next, Inv, Exec, With, CallsOf, Played, h.Sound, h.Scripted, StepActed, Carried, PreflightStep,
         DeleteStep, StartStep, DoMainCall, KickStep, DoComplete, TailStep;
    e := Broken;
    NoneCarried(h.calls, One(k, Notice));
    var env := Pause(h, k, p);
    if env.None? {
      return;
    }
    StepHere(h, env.value);
    var o := Tell(h, k, p, Notice, env.value, h.Rows()[k],
                  if env.value.outcome == Accepted then Punishing(run.(pc := SenderAct)) else Idle);
    OneCarried(old(h.calls), FromPunishment(k), Notice, o);
    if o == Accepted {
      e := RecordWarning(h, k, p, run);
      WholeCarried(old(h.calls), h.calls, One(k, Notice));
    }
  }

  method RecordWarning(h: Host, k: nat, p: Row, ghost run: Run) returns (e: Ending)
    requires run.k == k && Standing(h, Punishing(run.(pc := SenderAct)), k, p)
    modifies h`world, h`script, h`log, h`at, h`heard
    ensures h.Valid() && Grows(old(h.log), h.log)
    ensures e == Nil ==> Standing(h, Punishing(run.(pc := MarkDone)), k, p)
    ensures e != Nil ==> e == Broken && h.at == Idle
  {
    GrowsOn();
    hide Grows, Next, Inv, Exec, With, CallsOf, Played, h.Sound, h.Scripted, StepActed, PreflightStep, DeleteStep,
         StartStep, DoMainCall, KickStep, DoComplete, TailStep;
    e := Broken;
    var env := Pause(h, k, p);
    if env.None? {
      return;
    }
    StepHere(h, env.value);
    FixedActed(p, h.Rows()[k]);
    Mark(h, k, p, StepActed(h.Rows()[k]), env.value, Punishing(run.(pc := MarkDone)));
    e := Nil;
  }

  // ---------------------------------------------------------------- the whole attempt

  /** Two rows never bear the same time: an insert waits until the clock has moved on. */
  method AwaitClock(h: Host, ghost plan: Row, ghost caller: Option<Snapshot>) returns (env: Option<Env>)
    requires h.Valid() && h.at == Preparing(plan, caller)
    modifies h`world, h`script, h`log, h`at, h`heard
    ensures h.id in h.world.members && h.Sound() && h.heard == env && Grows(old(h.log), h.log)
    ensures env.None? ==> h.at == Idle && h.script == []
    ensures env.Some? ==>
      h.at == old(h.at) && (h.Rows() == [] || h.world.now > h.Rows()[|h.Rows()| - 1].createdAt)
  {
    hide Inv, Exec, With, CallsOf, Played, h.Sound, h.Scripted, HasKey;
    env := h.Await();
    while env.Some? && h.Rows() != [] && h.world.now <= h.Rows()[|h.Rows()| - 1].createdAt
      invariant h.id in h.world.members && h.Sound() && h.heard == env && Grows(old(h.log), h.log)
      invariant env.None? ==> h.at == Idle && h.script == []
      invariant env.Some? ==> h.at == Preparing(plan, caller)
      decreases |h.script|, env.Some?
    {
      h.Write(h.Rows(), h.Sessions(), env.value, h.at);
      env := h.Await();
    }
  }

  /** PreparePunishment: the two inserts and the read. */
  method PreparePunishment(h: Host, plan: Row, ghost caller: Option<Snapshot>) returns (ok: bool, k: nat)
    requires h.Valid() && h.at == Preparing(plan, caller)
    modifies h`world, h`script, h`log, h`at, h`heard
    ensures h.Valid() && Grows(old(h.log), h.log)
    ensures ok ==> k < |h.Rows()| && h.at == Punishing(FirstRun(k, caller).(pc := ReadRow))
    ensures ok ==> h.Rows()[k].key == plan.key && h.Rows()[k].workflow
    ensures !ok ==> h.at == Idle && h.script == []
  {
    GrowsOn();
    hide Grows, h.Sound;
    ok, k := InsertPunishment(h, plan, caller);
    if ok {
      ok := AddWorkflowRow(h, k, h.Rows()[k], FirstRun(k, caller));
    }
  }

  method InsertPunishment(h: Host, plan: Row, ghost caller: Option<Snapshot>) returns (ok: bool, k: nat)
    requires h.Valid() && h.at == Preparing(plan, caller)
    modifies h`world, h`script, h`log, h`at, h`heard
    ensures h.Valid() && Grows(old(h.log), h.log)
    ensures ok ==> k < |h.Rows()| && Standing(h, Punishing(FirstRun(k, caller)), k, h.Rows()[k]) && h.Rows()[k].key == plan.key
    ensures !ok ==> h.at == Idle && h.script == []
  {
    GrowsOn();
    hide Grows, Inv, Exec, With, CallsOf, Played, h.Sound, h.Scripted, KeyIndex, HasKey;
    ok, k := false, 0;
    var env := AwaitClock(h, plan, caller);
    if env.None? {
      return;
    }
    var rows := InsertRow(h.Rows(), plan.(createdAt := h.world.now));
    Inserted(h.Rows(), plan.(createdAt := h.world.now));
    k := KeyIndex(rows, plan.key);
    ghost var run := FirstRun(k, caller);
    h.Write(rows, h.Sessions(), env.value, Punishing(run));
    ok := true;
  }

  function FirstRun(k: nat, caller: Option<Snapshot>): Run {
    Run(k, AddWorkflow, false, false, false, false, 0, caller)
  }

  method AddWorkflowRow(h: Host, k: nat, p: Row, ghost run: Run) returns (ok: bool)
    requires run.k == k && Standing(h, Punishing(run.(pc := AddWorkflow)), k, p)
    modifies h`world, h`script, h`log, h`at, h`heard
    ensures h.Valid() && Grows(old(h.log), h.log)
    ensures ok ==> Standing(h, Punishing(run.(pc := ReadRow)), k, p) && h.Rows()[k].workflow
    ensures !ok ==> h.at == Idle && h.script == []
  {
    GrowsOn();
    hide Grows, Next, Inv, Exec, With, CallsOf, Played, h.Sound, h.Scripted, DeleteStep, StartStep, DoMainCall,
         KickStep, DoComplete, TailStep, SenderStep;
    ok := false;
    var env := Pause(h, k, p);
    if env.None? {
      return;
    }
    StepHere(h, env.value);
    Mark(h, k, p, InsertWorkflow(h.Chat(), h.Rows()[k]), env.value, Punishing(run.(pc := ReadRow)));
    ok := true;
  }

  lemma Inserted(rows: seq<Row>, r: Row)
    ensures HasKey(InsertRow(rows, r), r.key)
  {
    assert !HasKey(rows, r.key) ==> InsertRow(rows, r)[|rows|].key == r.key;
  }

  /** What follows the action. */
  method FinishPunishment(h: Host, k: nat, p: Row, ghost run: Run) returns (e: Ending, ghost told: bool)
    requires run.k == k && run.deleted0 == p.deleted && Standing(h, Punishing(run.(pc := AfterAction(run, p))), k, p)
    modifies h
    ensures h.Valid() && Grows(old(h.log), h.log)
    ensures e == Nil ==> Closed(h, run.caller, k, p)
    ensures e.Refusal? ==> Standing(h, Refuse(run, e.outcome), k, p)
    ensures e == Broken ==> h.at == Idle
    ensures Announces(p, told)
    ensures Carried(old(h.calls), h.calls, LastCalls(k, p) + NoticeCalls(k, told), e == Nil)
  {
    GrowsOn();
    hide *;
    told := p.decision.reason == RepeatedAd;
    RepeatedIsAnnounced(p);
    e := DeleteAfterBan(h, k, p, run);
    if e != Nil {
      CutCarried(old(h.calls), h.calls, LastCalls(k, p), NoticeCalls(k, told));
      return;
    }
    ghost var calls := h.calls;
    e, told := NotifyAndFinish(h, k, p, run);
    ThenCarried(old(h.calls), calls, h.calls, LastCalls(k, p), NoticeCalls(k, told), e == Nil);
  }

  lemma RepeatedIsAnnounced(p: Row)
    ensures Announces(p, p.decision.reason == RepeatedAd)
  {
  }

  /** The action and what follows it. */
  method ActAndFinish(h: Host, k: nat, p: Row, before: bool, ghost run: Run)
    returns (e: Ending, mayHaveActed: bool, ghost run': Run, ghost banned: bool, ghost told: bool)
    requires run.k == k && run.mayHaveActed == before && run.deleted0 == p.deleted
    requires run.acted0 == p.acted && run.started0 == p.started
    requires run.seconds == 0 && Standing(h, ApproachTo(run, p, h.world.now), k, p)
    modifies h
    ensures h.Valid() && Grows(old(h.log), h.log)
    ensures run' == run.(mayHaveActed := mayHaveActed, seconds := run'.seconds)
    ensures e == Nil ==> Closed(h, run.caller, k, p)
    ensures e.Refusal? ==> Standing(h, Refuse(run', e.outcome), k, p)
    ensures e == Broken ==> h.at == Idle
    ensures Announces(p, told)
    ensures Carried(old(h.calls), h.calls, ActionCalls(k, p, banned) + (LastCalls(k, p) + NoticeCalls(k, told)), e == Nil)
  {
    GrowsOn();
    hide *;
    told := p.decision.reason == RepeatedAd;
    RepeatedIsAnnounced(p);
    e, mayHaveActed, run', banned := Act(h, k, p, before, run);
    if e != Nil {
      CutCarried(old(h.calls), h.calls, ActionCalls(k, p, banned), LastCalls(k, p) + NoticeCalls(k, told));
      return;
    }
    ghost var calls := h.calls;
    e, told := FinishPunishment(h, k, p, run');
    ThenCarried(old(h.calls), calls, h.calls, ActionCalls(k, p, banned), LastCalls(k, p) + NoticeCalls(k, told), e == Nil);
  }

  /** The action stage of a user's punishment, up to the end. */
  method PunishUser(h: Host, k: nat, p: Row, ghost run0: Run) returns (e: Ending, mayHaveActed: bool, ghost run: Run)
    requires run0.k == k && run0.mayHaveActed == (p.acted || p.deleted || p.started) && run0.deleted0 == p.deleted && run0.acted0 == p.acted && run0.started0 == p.started
    requires run0.seconds == 0 && Standing(h, Punishing(run0.(pc := PunishPc.Preflight)), k, p)
    modifies h
    ensures h.Valid() && Grows(old(h.log), h.log)
    ensures run == run0.(mayHaveActed := mayHaveActed, seconds := run.seconds)
    ensures e == Nil ==> Closed(h, run.caller, k, p)
    ensures e.Refusal? ==> Standing(h, Refuse(run, e.outcome), k, p)
    ensures e == Broken ==> h.at == Idle
    ensures h.calls == old(h.calls) || Programmed(k, p, old(h.calls), h.calls, e == Nil)
  {
    GrowsOn();
    hide *;
    run, mayHaveActed := run0, p.acted || p.deleted || p.started;
    var go: bool;
    go, e := Preflight(h, k, p, run);
    if !go {
      return;
    }
    e, mayHaveActed, run := DeleteFirst(h, k, p, mayHaveActed, run);
    if e != Nil {
      DeletedOnly(k, p, old(h.calls), h.calls);
      return;
    }
    ghost var calls := h.calls;
    ghost var banned, told;
    e, mayHaveActed, run, banned, told := ActAndFinish(h, k, p, mayHaveActed, run);
    ThenActed(k, p, old(h.calls), calls, h.calls, banned, told, e == Nil);
  }

  lemma DeletedOnly(k: nat, p: Row, a: seq<Effect>, b: seq<Effect>)
    requires Carried(a, b, DeleteCalls(k, p), false)
    ensures Programmed(k, p, a, b, false)
  {
    hide Carried, DeleteCalls, ActionCalls, LastCalls, NoticeCalls;
    var told := p.decision.reason == RepeatedAd;
    CutCarried(a, b, DeleteCalls(k, p), ActionCalls(k, p, false) + (LastCalls(k, p) + NoticeCalls(k, told)));
    assert Carried(a, b, Programme(k, p, false, told), false);
  }

  lemma ThenActed(k: nat, p: Row, a: seq<Effect>, b: seq<Effect>, c: seq<Effect>, banned: bool, told: bool, whole: bool)
    requires Carried(a, b, DeleteCalls(k, p), true) && Announces(p, told)
    requires Carried(b, c, ActionCalls(k, p, banned) + (LastCalls(k, p) + NoticeCalls(k, told)), whole)
    ensures Programmed(k, p, a, c, whole)
  {
    hide Carried, DeleteCalls, ActionCalls, LastCalls, NoticeCalls;
    ThenCarried(a, b, c, DeleteCalls(k, p), ActionCalls(k, p, banned) + (LastCalls(k, p) + NoticeCalls(k, told)), whole);
    assert Carried(a, c, Programme(k, p, banned, told), whole);
  }

  /** Skipped, or done with the action carried out and its message deleted. */
  predicate CarriedOut(user: int, r: Row) {
    r.status == Skipped
    || (r.status == PunishmentStatus.Done && (user >= 0 ==> r.acted && (WantsDelete(r) ==> r.deleted)))
  }

  lemma ClosedIsCarriedOut(h: Host, caller: Option<Snapshot>, k: nat, p: Row)
    requires Closed(h, caller, k, p)
    ensures CarriedOut(h.id.user, h.Rows()[k]) && h.Rows()[k].key == p.key
  {
    hide MemberInv;
    h.Known();
    RowKnown(h.id.user, h.Chat().epoch, h.world.now, h.Current(), k);
  }

  lemma RowKnown(user: int, epoch: nat, now: int, s: MemberState, k: nat)
    requires MemberInv(user, epoch, now, s) && k < |s.rows|
    ensures s.rows[k].status == PunishmentStatus.Done && user >= 0 ==>
      s.rows[k].acted && (WantsDelete(s.rows[k]) ==> s.rows[k].deleted)
  {
  }

  /** The calls since are those of an attempt at the punishment with this key. */
  ghost predicate Attempted(user: int, rows: seq<Row>, key: EventKey, before: seq<Effect>, after: seq<Effect>, whole: bool) {
    after == before
    || exists k: nat, p: Row :: k < |rows| && p.key == key && Fixed(p, rows[k]) && AttemptedOn(user, k, p, before, after, whole)
  }

  ghost predicate AttemptedOn(user: int, k: nat, p: Row, before: seq<Effect>, after: seq<Effect>, whole: bool) {
    if user < 0 then Carried(before, after, SenderProgramme(k, p), whole) else Programmed(k, p, before, after, whole)
  }

  /** punishLocked, from the stored intent to its return. It ends with the lock free, or back
      in the self session that called it; it returns nil only when the punishment is
      finished, and with all the calls of the row as it was read, in order, unless it was
      finished or skipped before the first. A call that was definitely rejected before
      anything of the punishment could have taken effect ends it for good. */
  method PunishLocked(h: Host, plan: Row, ghost caller: Option<Snapshot>) returns (e: Ending)
    requires h.Valid() && h.at == Preparing(plan, caller)
    modifies h
    ensures h.Valid() && Grows(old(h.log), h.log) && old(h.calls) <= h.calls
    ensures e == Nil ==> h.at == ReturnTo(caller) && exists k :: 0 <= k < |h.Rows()| && h.Rows()[k].key == plan.key
                                                                && CarriedOut(h.id.user, h.Rows()[k])
    ensures e != Nil ==> h.at == Idle
    ensures Attempted(h.id.user, h.Rows(), plan.key, old(h.calls), h.calls, e == Nil)
  {
    GrowsOn();
    hide Grows, Next, Inv, Exec, With, CallsOf, Played, h.Sound, h.Scripted, EnterTo, ApproachTo, Programmed,
         SenderProgramme, Carried, DeleteStep, StartStep, DoMainCall, KickStep, DoComplete, TailStep, SenderStep;
    var ok, k := PreparePunishment(h, plan, caller);
    if !ok {
      return Broken;
    }
    var end, p := ReadStored(h, k, caller);
    if end.Some? {
      if end.value == Nil {
        ClosedIsCarriedOut(h, caller, k, p);
      }
      return end.value;
    }
    LogTells(h);
    ghost var log := h.log;
    e := PunishStored(h, k, p, Seen(k, p, caller));
    StillThere(h, log, k, p);
    AttemptGrows(h.id.user, k, p, old(h.calls), h.calls, e == Nil);
    if e == Nil {
      ClosedIsCarriedOut(h, caller, k, p);
    }
  }

  function Seen(k: nat, p: Row, caller: Option<Snapshot>): Run {
    Run(k, ReadRow, p.deleted, p.acted, p.started, p.acted || p.deleted || p.started, 0, caller)
  }

  /** Where the attempt on the row starts. */
  function SeenTo(user: int, run: Run, p: Row): Proc {
    if user < 0 then SenderTo(run, p) else Punishing(run.(pc := PunishPc.Preflight))
  }

  /** The snapshot, or how the program ends without one. */
  method ReadStored(h: Host, k: nat, ghost caller: Option<Snapshot>) returns (end: Option<Ending>, p: Row)
    requires h.Valid() && k < |h.Rows()| && h.at == Punishing(FirstRun(k, caller).(pc := ReadRow))
    modifies h`world, h`script, h`log, h`at, h`heard
    ensures h.Valid() && Grows(old(h.log), h.log) && p.key == old(h.Rows()[k].key)
    ensures end.None? ==> Standing(h, SeenTo(h.id.user, Seen(k, p, caller), p), k, p) && h.Rows()[k] == p
    ensures end == Some(Nil) ==> Closed(h, caller, k, p)
    ensures end.Some? && end.value != Nil ==> end.value == Broken && h.at == Idle
  {
    GrowsOn();
    hide Grows, Next, Inv, Exec, With, CallsOf, Played, h.Sound, h.Scripted, DeleteStep, StartStep, DoMainCall, KickStep,
         DoComplete, TailStep, SenderStep;
    p, end := h.Rows()[k], Some(Broken);
    var env := Pause(h, k, p);
    if env.None? {
      return;
    }
    p := h.Rows()[k];
    StepHere(h, env.value);
    if p.status == PunishmentStatus.Done || p.status == Skipped {
      Pass(h, k, p, env.value, ReturnTo(caller));
      end := Some(Nil);
    } else if p.status == Failed {
      Pass(h, k, p, env.value, Idle);
    } else {
      Pass(h, k, p, env.value, SeenTo(h.id.user, Seen(k, p, caller), p));
      end := None;
    }
  }

  lemma AttemptGrows(user: int, k: nat, p: Row, a: seq<Effect>, b: seq<Effect>, whole: bool)
    requires b == a || AttemptedOn(user, k, p, a, b, whole)
    ensures a <= b
  {
  }

  lemma StillThere(h: Host, log: seq<Move>, k: nat, p: Row)
    requires h.id in h.world.members && h.Sound() && Grows(log, h.log)
    requires var rows := RowsOf(Exec(h.start, log), h.id); k < |rows| && Fixed(p, rows[k])
    ensures k < |h.Rows()| && Fixed(p, h.Rows()[k])
  {
    hide Exec, Inv, CallsOf, Played, h.Sound, h.Scripted;
    StoredStays(h, log);
    assert Evolves(RowsOf(Exec(h.start, log), h.id)[k], h.Rows()[k]);
  }

  /** The attempt on the row as it was read. */
  method PunishStored(h: Host, k: nat, p: Row, ghost run0: Run) returns (e: Ending)
    requires run0.k == k && run0.mayHaveActed == (p.acted || p.deleted || p.started) && run0.deleted0 == p.deleted && run0.acted0 == p.acted && run0.started0 == p.started
    requires run0.seconds == 0
    requires Standing(h, SeenTo(h.id.user, run0, p), k, p)
    modifies h
    ensures h.Valid() && Grows(old(h.log), h.log)
    ensures e == Nil ==> Closed(h, run0.caller, k, p)
    ensures e != Nil ==> h.at == Idle
    ensures h.calls == old(h.calls) || AttemptedOn(h.id.user, k, p, old(h.calls), h.calls, e == Nil)
  {
    GrowsOn();
    hide *;
    SeenCases(h.id.user, run0, p);
    if h.id.user < 0 {
      e := PunishSender(h, k, p, run0);
      SenderAttempted(h.id.user, k, p, old(h.calls), h.calls, e == Nil);
      return;
    }
    var mayHaveActed;
    ghost var run;
    e, mayHaveActed, run := PunishUser(h, k, p, run0);
    UserAttempted(h.id.user, k, p, old(h.calls), h.calls, e == Nil);
    if e.Refusal? {
      RefusedTo(run, e.outcome);
      StandsAt(h, Refuse(run, e.outcome), k, p);
      if e == Refusal(Rejected) && !mayHaveActed {
        RejectIfClean(h, k, p, run);
      }
    }
  }

  lemma SeenCases(user: int, run: Run, p: Row)
    ensures SeenTo(user, run, p) == if user < 0 then SenderTo(run, p) else Punishing(run.(pc := PunishPc.Preflight))
  {
  }

  lemma StandsAt(h: Host, to: Proc, k: nat, p: Row)
    requires Standing(h, to, k, p)
    ensures h.at == to
  {
  }

  lemma RefusedTo(run: Run, o: Outcome)
    ensures Refuse(run, o) == if o == Rejected && !run.mayHaveActed then Punishing(run.(pc := Reject)) else Idle
  {
  }

  lemma SenderAttempted(user: int, k: nat, p: Row, a: seq<Effect>, b: seq<Effect>, whole: bool)
    requires user < 0
    ensures AttemptedOn(user, k, p, a, b, whole) == Carried(a, b, SenderProgramme(k, p), whole)
  {
  }

  lemma UserAttempted(user: int, k: nat, p: Row, a: seq<Effect>, b: seq<Effect>, whole: bool)
    requires user >= 0
    ensures AttemptedOn(user, k, p, a, b, whole) == Programmed(k, p, a, b, whole)
  {
  }

  /** The deferred rule: the punishment is pending no more. */
  method RejectIfClean(h: Host, k: nat, p: Row, ghost run: Run)
    requires run.k == k && Standing(h, Punishing(run.(pc := Reject)), k, p)
    modifies h`world, h`script, h`log, h`at, h`heard
    ensures h.Valid() && h.at == Idle && Grows(old(h.log), h.log)
    ensures h.script != [] ==> k < |h.Rows()| && Fixed(p, h.Rows()[k]) && h.Rows()[k].status != Pending
  {
    GrowsOn();
    hide Grows, Next, Inv, Exec, With, CallsOf, Played, h.Sound, h.Scripted, PreflightStep, DeleteStep, StartStep,
         DoMainCall, KickStep, DoComplete, SenderStep, RejectPunishment;
    var env := Pause(h, k, p);
    if env.Some? {
      StepHere(h, env.value);
      RejectEnds(h, k, p);
      Mark(h, k, p, RejectPunishment(h.Rows()[k]), env.value, Idle);
    }
  }

  lemma RejectEnds(h: Host, k: nat, p: Row)
    requires Placed(h, h.at, k, p) && h.at.Punishing? && h.at.run.k == k && h.at.run.pc == Reject
    ensures Fixed(p, RejectPunishment(h.Rows()[k])) && RejectPunishment(h.Rows()[k]).status != Pending
  {
    hide h.Sound, RowInv;
    HereKnown(h, k, p);
  }
}
