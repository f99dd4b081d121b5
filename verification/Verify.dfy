/** The verification programs and the release task as they are written, each kept a run of
    the machine like punishLocked. */
module Verify {
  import opened Domain
  import opened Tables
  import opened Machine
  import opened Invariant
  import opened StepSafety
  import opened World
  import opened Runs
  import opened Locked
  import opened Punish
  import opened Endings

  // ---------------------------------------------------------------- where the program stands

  /** What no writer ever changes in a session. */
  predicate Same(v: Session, v': Session) {
    v'.own == v.own && v'.failAction == v.failAction && v'.answer == v.answer && v'.createdAt == v.createdAt
  }

  ghost predicate Near(h: Host, to: Proc, t: nat, v: Session)
    reads h
  {
    h.id in h.world.members && h.Sound() && h.at == to && t < |h.Sessions()| && Same(v, h.Sessions()[t])
  }

  /** Between two statements, with no answer left unused. */
  ghost predicate On(h: Host, to: Proc, t: nat, v: Session)
    reads h
  {
    Near(h, to, t, v) && h.Valid() && h.at == to
  }

  method Rest(h: Host, ghost t: nat, ghost v: Session) returns (env: Option<Env>)
    requires On(h, h.at, t, v) && h.at != Idle
    modifies h`world, h`script, h`log, h`at, h`heard
    ensures h.heard == env && Grows(old(h.log), h.log)
    ensures env.Some? ==> Near(h, old(h.at), t, v)
    ensures env.None? ==> h.Valid() && h.at == Idle && h.script == []
  {
    env := h.Await();
  }

  /** A test or read. */
  method Go(h: Host, ghost t: nat, ghost v: Session, ghost env: Env, ghost to: Proc)
    requires Near(h, h.at, t, v) && h.heard == Some(env)
    requires h.StepOf(env) == (h.Current().(proc := to), Quiet)
    modifies h`world, h`log, h`at, h`heard
    ensures On(h, to, t, v) && h.Rows() == old(h.Rows()) && h.Sessions() == old(h.Sessions())
    ensures h.world.now == old(h.world.now) && h.Chat() == old(h.Chat()) && Grows(old(h.log), h.log)
  {
    hide Next;
    h.Write(h.Rows(), h.Sessions(), env, to);
  }

  /** An update of the session itself. */
  method Update(h: Host, t: nat, ghost v: Session, v': Session, ghost env: Env, ghost to: Proc)
    requires Near(h, h.at, t, v) && Same(v, v') && h.heard == Some(env)
    requires h.StepOf(env) == (h.Current().(sessions := h.Sessions()[t := v'], proc := to), Quiet)
    modifies h`world, h`log, h`at, h`heard
    ensures On(h, to, t, v) && h.Sessions()[t] == v' && h.Rows() == old(h.Rows()) && Grows(old(h.log), h.log)
  {
    hide Next;
    h.Write(h.Rows(), h.Sessions()[t := v'], env, to);
  }

  lemma FinishHere(h: Host, env: Env)
    requires h.id in h.world.members && h.at.Finishing? && h.at.v.token < |h.Sessions()|
    ensures h.StepOf(env) == FinishStep(h.Chat(), h.Current(), h.world.now, env)
    ensures h.Current() == h.Current().(rows := h.Rows()) == h.Current().(sessions := h.Sessions())
  {
    hide PunishStep, FinishStep, JoinStep, AnswerStep, ReleaseStep, SelfStep, Prepare;
  }

  /** What the invariant says of a finishing program. */
  lemma FinishTold(h: Host)
    requires h.id in h.world.members && h.Sound() && h.at.Finishing?
    ensures var (v, pc) := (h.at.v, h.at.fpc);
      && v.token < |h.Sessions()|
      && (pc.Write? ==> MayEnd(v.status, pc.to))
      && (pc.Write? && h.Sessions()[v.token].own && pc.to == Verified ==> SelfUnmuteDone(h.Rows(), v.token))
  {
    hide MemberInv, h.Sound, SelfUnmuteDone;
    h.Known();
    FinishFacts(h.id.user, h.Chat().epoch, h.world.now, h.Current());
  }

  // ---------------------------------------------------------------- finishVerification

  /** The calls of the permission work, all acknowledged. */
  function OpCalls(token: nat, ops: seq<SessionOp>): seq<Effect> {
    if ops == [] then [] else Acks(token, ops[0]) + OpCalls(token, ops[1..])
  }

  lemma {:induction false} OpCallsAreSent(token: nat, ops: seq<SessionOp>)
    ensures OpCalls(token, ops) == SentAll(token, CallsOfOps(ops))
  {
    if ops != [] {
      var first := if ops[0] == OpMarkKick || ops[0] == OpConfirm then [] else [SessionCall(ops[0])];
      OpCallsAreSent(token, ops[1..]);
      assert Acks(token, ops[0]) == SentAll(token, first);
      SentInTurn(token, first, CallsOfOps(ops[1..]));
    }
  }

  lemma SentInTurn(token: nat, a: seq<Call>, b: seq<Call>)
    ensures SentAll(token, a + b) == SentAll(token, a) + SentAll(token, b)
  {
  }

  lemma OneMore(token: nat, op: SessionOp, rest: seq<SessionOp>)
    ensures OpCalls(token, [op] + rest) == Acks(token, op) + OpCalls(token, rest)
  {
    assert ([op] + rest)[1..] == rest;
  }

  /** One piece of the permission work; `rest` is what remains of the machine's plan. */
  method Do(h: Host, v: Snapshot, ghost row: Session, op: SessionOp, ghost rest: seq<SessionOp>, ghost to: SessionStatus)
    returns (ok: bool)
    requires On(h, Finishing(v, Perform([op] + rest, to)), v.token, row)
    modifies h
    ensures h.Valid() && Grows(old(h.log), h.log)
    ensures ok ==> On(h, Finishing(v, Perform(rest, to)), v.token, row)
    ensures !ok ==> h.at == Idle
    ensures Carried(old(h.calls), h.calls, Acks(v.token, op), ok)
  {
    GrowsOn();
    hide Grows, Carried, Next, Inv, Exec, With, CallsOf, Played, h.Sound, h.Scripted;
    NoneCarried(h.calls, Acks(v.token, op));
    var env := Rest(h, v.token, row);
    if env.None? {
      return false;
    }
    FinishHere(h, env.value);
    assert ([op] + rest)[0] == op && ([op] + rest)[1..] == rest;
    ghost var done := Finishing(v, Perform(rest, to));
    match op {
      case OpMarkKick =>
        Update(h, v.token, row, BeginKick(h.Sessions()[v.token]), env.value, done);
        ok := true;
      case OpConfirm =>
        ok := env.value.chatStatus != Kicked;
        Go(h, v.token, row, env.value, if ok then done else Idle);
      case _ =>
        var o := h.Send(FromSession(v.token), SessionCall(op), env.value, h.Rows(),
                        if env.value.outcome == Accepted then done else Idle);
        OneCarried(old(h.calls), FromSession(v.token), SessionCall(op), o);
        ok := o == Accepted;
    }
  }

  /** One piece of the work, and the rest of it. */
  lemma DidOne(token: nat, op: SessionOp, rest: seq<SessionOp>, a: seq<Effect>, b: seq<Effect>, ok: bool)
    requires Carried(a, b, Acks(token, op), ok)
    ensures !ok ==> Carried(a, b, OpCalls(token, [op] + rest), false)
    ensures ok && rest == [] ==> Carried(a, b, OpCalls(token, [op]), true)
  {
    hide Carried, Acks;
    OneMore(token, op, rest);
    CutIf(a, b, Acks(token, op), OpCalls(token, rest), ok);
    assert [op] + [] == [op];
    assert OpCalls(token, []) == [] && Acks(token, op) + [] == Acks(token, op);
  }

  lemma CutIf(a: seq<Effect>, b: seq<Effect>, plan: seq<Effect>, rest: seq<Effect>, ok: bool)
    requires Carried(a, b, plan, ok)
    ensures !ok ==> Carried(a, b, plan + rest, false)
  {
    hide Carried;
    if !ok {
      CutCarried(a, b, plan, rest);
    }
  }

  lemma DidMore(token: nat, op: SessionOp, rest: seq<SessionOp>, a: seq<Effect>, b: seq<Effect>, c: seq<Effect>, ok: bool)
    requires Carried(a, b, Acks(token, op), true) && Carried(b, c, OpCalls(token, rest), ok)
    ensures Carried(a, c, OpCalls(token, [op] + rest), ok)
  {
    hide Carried, Acks;
    OneMore(token, op, rest);
    ThenCarried(a, b, c, Acks(token, op), OpCalls(token, rest), ok);
  }

  /** The last piece of the work. */
  method DoLast(h: Host, v: Snapshot, ghost row: Session, op: SessionOp, ghost to: SessionStatus) returns (ok: bool)
    requires On(h, Finishing(v, Perform([op], to)), v.token, row)
    modifies h
    ensures h.Valid() && Grows(old(h.log), h.log)
    ensures ok ==> On(h, Finishing(v, Perform([], to)), v.token, row)
    ensures !ok ==> h.at == Idle
    ensures Carried(old(h.calls), h.calls, OpCalls(v.token, [op]), ok)
  {
    hide *;
    assert [op] == [op] + [];
    ok := Do(h, v, row, op, [], to);
    DidOne(v.token, op, [], old(h.calls), h.calls, ok);
  }

  /** releaseKick. */
  method UndoKick(h: Host, v: Snapshot, ghost row: Session, ghost to: SessionStatus) returns (ok: bool)
    requires On(h, Finishing(v, Perform(Machine.ReleaseKick(), to)), v.token, row)
    modifies h
    ensures h.Valid() && Grows(old(h.log), h.log)
    ensures ok ==> On(h, Finishing(v, Perform([], to)), v.token, row)
    ensures !ok ==> h.at == Idle
    ensures Carried(old(h.calls), h.calls, OpCalls(v.token, Machine.ReleaseKick()), ok)
  {
    GrowsOn();
    hide On, Grows, Carried, OpCalls, Acks, h.Valid;
    assert Machine.ReleaseKick() == [OpUnban] + [OpConfirm];
    ok := Do(h, v, row, OpUnban, [OpConfirm], to);
    DidOne(v.token, OpUnban, [OpConfirm], old(h.calls), h.calls, ok);
    if ok {
      ghost var calls := h.calls;
      ok := DoLast(h, v, row, OpConfirm, to);
      DidMore(v.token, OpUnban, [OpConfirm], old(h.calls), calls, h.calls, ok);
    }
  }

  /** The status is written only if the session is still as it was read. */
  method Conclude(h: Host, v: Snapshot, ghost row: Session, to: SessionStatus) returns (done: Option<SessionStatus>)
    requires On(h, Finishing(v, FinishPc.Write(to)), v.token, row)
    modifies h`world, h`script, h`log, h`at, h`heard
    ensures h.Valid() && h.at == Idle && Grows(old(h.log), h.log)
    ensures Concluded(h, v, row, done) && (done.Some? ==> done.value == to)
  {
    GrowsOn();
    hide Grows, Next, Inv, Exec, With, CallsOf, Played, h.Sound, h.Scripted, SelfUnmuteDone;
    done := None;
    var env := Rest(h, v.token, row);
    if env.None? {
      return;
    }
    FinishHere(h, env.value);
    FinishTold(h);
    var r := FinishSession(h.Sessions()[v.token], v.status, to);
    if r.None? {
      Go(h, v.token, row, env.value, Idle);
    } else {
      Update(h, v.token, row, r.value, env.value, Idle);
      done := Some(to);
    }
  }

  /** What a finished verification leaves: its status is stored, one that may follow the
      status it was read with, and a verified member who asked for it is unmuted. */
  ghost predicate Concluded(h: Host, v: Snapshot, row: Session, done: Option<SessionStatus>)
    reads h
  {
    h.id in h.world.members
    && (done.Some? ==>
          && v.token < |h.Sessions()| && h.Sessions()[v.token].status == done.value && Same(row, h.Sessions()[v.token])
          && MayEnd(v.status, done.value)
          && (row.own && done.value == Verified ==> SelfUnmuteDone(h.Rows(), v.token)))
  }

  /** The permission work by branch, from the answers read at the start of it: its calls, in
      order and all accepted if it returns the status to write. */
  method Work(h: Host, v: Snapshot, row: Session, authorized: bool, env: Env) returns (status: Option<SessionStatus>)
    requires var p := FinishPlan(v, row.failAction, authorized, env);
      p.Some? && On(h, Finishing(v, Perform(p.value.0, p.value.1)), v.token, row)
    modifies h
    ensures h.Valid() && Grows(old(h.log), h.log) && old(h.calls) <= h.calls
    ensures var p := FinishPlan(v, row.failAction, authorized, env).value;
      && (status.Some? ==> status.value == p.1 && On(h, Finishing(v, Perform([], p.1)), v.token, row))
      && EndsBy(v.status, v.kickStarted, row.failAction, authorized && env.verificationEnabled, env, p.1, CallsOfOps(p.0))
      && Carried(old(h.calls), h.calls, SentAll(v.token, CallsOfOps(p.0)), status.Some?)
    ensures status.None? ==> h.at == Idle
  {
    hide EndsBy, SentAll, On, Grows, Carried, OpCalls, Acks, h.Valid;
    ghost var plan := FinishPlan(v, row.failAction, authorized, env).value;
    if !authorized || !env.verificationEnabled || v.status == Releasing {
      status := WorkReleasing(h, v, row, env.chatStatus);
    } else if v.status == Completing {
      status := WorkCompleting(h, v, row, env);
    } else {
      status := WorkExpiring(h, v, row, env);
    }
    CarriedOn(old(h.calls), h.calls, OpCalls(v.token, plan.0), status.Some?);
    PlanEndsBy(v, row.failAction, authorized, env);
    OpCallsAreSent(v.token, plan.0);
  }

  lemma CarriedOn(a: seq<Effect>, b: seq<Effect>, plan: seq<Effect>, whole: bool)
    requires Carried(a, b, plan, whole)
    ensures a <= b
  {
  }

  lemma NothingToDo(token: nat, before: seq<Effect>)
    ensures Carried(before, before, OpCalls(token, []), true)
  {
  }

  /** The work of a session that is given up. */
  function Undoing(v: Snapshot, fail: FailAction): seq<SessionOp> {
    if v.kickStarted && fail == FailKick then Machine.ReleaseKick() else []
  }

  method WorkReleasing(h: Host, v: Snapshot, row: Session, c: ChatStatus) returns (status: Option<SessionStatus>)
    requires On(h, Finishing(v, Perform((if c.Restricted? then [OpRestore] else []) + Undoing(v, row.failAction), Cancelled)), v.token, row)
    modifies h
    ensures h.Valid() && Grows(old(h.log), h.log)
    ensures status.Some? ==> status.value == Cancelled && On(h, Finishing(v, Perform([], Cancelled)), v.token, row)
    ensures status.None? ==> h.at == Idle
    ensures Carried(old(h.calls), h.calls,
      OpCalls(v.token, (if c.Restricted? then [OpRestore] else []) + Undoing(v, row.failAction)), status.Some?)
  {
    GrowsOn();
    hide On, Grows, Carried, OpCalls, Acks, h.Valid, Undoing;
    ghost var undo := Undoing(v, row.failAction);
    var ok := true;
    if c.Restricted? {
      ok := Do(h, v, row, OpRestore, undo, Cancelled);
      DidOne(v.token, OpRestore, undo, old(h.calls), h.calls, ok);
    } else {
      assert [] + undo == undo;
    }
    if ok {
      ghost var calls := h.calls;
      ok := Undo(h, v, row);
      if c.Restricted? {
        DidMore(v.token, OpRestore, undo, old(h.calls), calls, h.calls, ok);
      }
    }
    status := if ok then Some(Cancelled) else None;
  }

  method Undo(h: Host, v: Snapshot, row: Session) returns (ok: bool)
    requires On(h, Finishing(v, Perform(Undoing(v, row.failAction), Cancelled)), v.token, row)
    modifies h
    ensures h.Valid() && Grows(old(h.log), h.log)
    ensures ok ==> On(h, Finishing(v, Perform([], Cancelled)), v.token, row)
    ensures !ok ==> h.at == Idle
    ensures Carried(old(h.calls), h.calls, OpCalls(v.token, Undoing(v, row.failAction)), ok)
  {
    GrowsOn();
    hide Near, Grows, Carried, OpCalls, h.Sound;
    NothingToDo(v.token, h.calls);
    ok := true;
    if v.kickStarted && row.failAction == FailKick {
      ok := UndoKick(h, v, row, Cancelled);
    }
  }

  method WorkCompleting(h: Host, v: Snapshot, row: Session, env: Env) returns (status: Option<SessionStatus>)
    requires v.status == Completing && env.verificationEnabled
    requires var p := FinishPlan(v, row.failAction, true, env);
      p.Some? && On(h, Finishing(v, Perform(p.value.0, p.value.1)), v.token, row)
    modifies h
    ensures h.Valid() && Grows(old(h.log), h.log)
    ensures var p := FinishPlan(v, row.failAction, true, env).value;
      && (status.Some? ==> status.value == p.1 && On(h, Finishing(v, Perform([], p.1)), v.token, row))
      && Carried(old(h.calls), h.calls, OpCalls(v.token, p.0), status.Some?)
    ensures status.None? ==> h.at == Idle
  {
    GrowsOn();
    hide Near, Grows, Carried, OpCalls, h.Sound;
    NothingToDo(v.token, h.calls);
    var c := env.chatStatus;
    if !Present(c) {
      return Some(SessionStatus.Left);
    }
    if env.blacklisted && !Admin(c) && !env.superAdmin {
      var ok := DoLast(h, v, row, OpBan, Blocked);
      return if ok then Some(Blocked) else None;
    }
    var ok := true;
    if !Admin(c) {
      ok := DoLast(h, v, row, OpRestore, Verified);
    }
    status := if ok then Some(Verified) else None;
  }

  method WorkExpiring(h: Host, v: Snapshot, row: Session, env: Env) returns (status: Option<SessionStatus>)
    requires v.status == Expiring && env.verificationEnabled
    requires var p := FinishPlan(v, row.failAction, true, env);
      p.Some? && On(h, Finishing(v, Perform(p.value.0, p.value.1)), v.token, row)
    modifies h
    ensures h.Valid() && Grows(old(h.log), h.log)
    ensures var p := FinishPlan(v, row.failAction, true, env).value;
      && (status.Some? ==> status.value == p.1 && On(h, Finishing(v, Perform([], p.1)), v.token, row))
      && Carried(old(h.calls), h.calls, OpCalls(v.token, p.0), status.Some?)
    ensures status.None? ==> h.at == Idle
  {
    GrowsOn();
    hide Near, Grows, Carried, OpCalls, h.Sound;
    NothingToDo(v.token, h.calls);
    var c := env.chatStatus;
    var ok := true;
    if env.protected {
      if c.Restricted? {
        ok := DoLast(h, v, row, OpRestore, Cancelled);
        return if ok then Some(Cancelled) else None;
      }
    } else if row.failAction == FailKick {
      ok := KickOut(h, v, row, Present(c));
    } else if row.failAction == FailBan && Present(c) {
      ok := DoLast(h, v, row, OpBan, Expired);
    }
    status := if ok then Some(Expired) else None;
  }

  /** The kick of a session that ran out: marked, banned and released, or only released when
      the member is gone and an earlier attempt may have banned. */
  function Kicking(v: Snapshot, present: bool): seq<SessionOp> {
    (if present then [OpMarkKick, OpBan] else []) + (if present || v.kickStarted then Machine.ReleaseKick() else [])
  }

  method KickOut(h: Host, v: Snapshot, ghost row: Session, present: bool) returns (ok: bool)
    requires On(h, Finishing(v, Perform(Kicking(v, present), Expired)), v.token, row)
    modifies h
    ensures h.Valid() && Grows(old(h.log), h.log)
    ensures ok ==> On(h, Finishing(v, Perform([], Expired)), v.token, row)
    ensures !ok ==> h.at == Idle
    ensures Carried(old(h.calls), h.calls, OpCalls(v.token, Kicking(v, present)), ok)
  {
    GrowsOn();
    hide Near, Grows, Carried, OpCalls, h.Sound;
    NothingToDo(v.token, h.calls);
    if present {
      assert Kicking(v, true) == [OpMarkKick] + ([OpBan] + Machine.ReleaseKick());
      ok := KickPresent(h, v, row);
    } else if v.kickStarted {
      assert Kicking(v, false) == Machine.ReleaseKick();
      ok := UndoKick(h, v, row, Expired);
    } else {
      assert Kicking(v, false) == [];
      ok := true;
    }
  }

  method KickPresent(h: Host, v: Snapshot, ghost row: Session) returns (ok: bool)
    requires On(h, Finishing(v, Perform([OpMarkKick] + ([OpBan] + Machine.ReleaseKick()), Expired)), v.token, row)
    modifies h
    ensures h.Valid() && Grows(old(h.log), h.log)
    ensures ok ==> On(h, Finishing(v, Perform([], Expired)), v.token, row)
    ensures !ok ==> h.at == Idle
    ensures Carried(old(h.calls), h.calls, OpCalls(v.token, [OpMarkKick] + ([OpBan] + Machine.ReleaseKick())), ok)
  {
    GrowsOn();
    hide *;
    ghost var undo := Machine.ReleaseKick();
    ok := Do(h, v, row, OpMarkKick, [OpBan] + undo, Expired);
    DidOne(v.token, OpMarkKick, [OpBan] + undo, old(h.calls), h.calls, ok);
    if ok {
      ghost var marked := h.calls;
      ok := Do(h, v, row, OpBan, undo, Expired);
      DidOne(v.token, OpBan, undo, marked, h.calls, ok);
      if ok {
        ghost var banned := h.calls;
        ok := UndoKick(h, v, row, Expired);
        DidMore(v.token, OpBan, undo, marked, banned, h.calls, ok);
      }
      DidMore(v.token, OpMarkKick, [OpBan] + undo, old(h.calls), marked, h.calls, ok);
    }
  }

  /** The calls since are those of the permission work of one branch: all of them, and for
      the status that is stored, when the verification is finished. */
  ghost predicate Worked(v: Snapshot, fail: FailAction, done: Option<SessionStatus>, before: seq<Effect>, after: seq<Effect>) {
    (after == before && done.None?)
    || exists on: bool, env: Env, to: SessionStatus, calls: seq<Call> :: WorkedAs(v, fail, on, env, to, calls, done, before, after)
  }

  predicate WorkedAs(v: Snapshot, fail: FailAction, on: bool, env: Env, to: SessionStatus, calls: seq<Call>,
                     done: Option<SessionStatus>, before: seq<Effect>, after: seq<Effect>) {
    EndsBy(v.status, v.kickStarted, fail, on, env, to, calls) && (done.Some? ==> done.value == to)
    && Carried(before, after, SentAll(v.token, calls), done.Some?)
  }

  /** The calls since are those of the self session's own unmute. */
  ghost predicate Unmuted(h: Host, token: nat, done: Option<SessionStatus>, before: seq<Effect>)
    reads h
  {
    h.id in h.world.members && Attempted(h.id.user, h.Rows(), SelfUnmute(token), before, h.calls, done.Some?)
  }

  /** The calls since are those of the verification. */
  ghost predicate Finishes(h: Host, v: Snapshot, row: Session, done: Option<SessionStatus>, before: seq<Effect>)
    reads h
  {
    before <= h.calls
    && if row.own then Unmuted(h, v.token, done, before) else Worked(v, row.failAction, done, before, h.calls)
  }

  /** finishVerification, under the member lock; it ends with the lock free. `done` is the
      status it wrote. */
  method FinishVerification(h: Host, v: Snapshot, row: Session) returns (done: Option<SessionStatus>)
    requires On(h, Finishing(v, Enter), v.token, row)
    modifies h
    ensures h.Valid() && h.at == Idle && Grows(old(h.log), h.log)
    ensures Concluded(h, v, row, done) && Finishes(h, v, row, done, old(h.calls))
  {
    GrowsOn();
    hide Grows, Next, Inv, Exec, With, CallsOf, Played, h.Sound, h.Scripted, FinishPlan, TakenOver, Concluded, Worked,
         Unmuted;
    done := None;
    var env := Rest(h, v.token, row);
    Untouched(h, v, row, old(h.calls));
    if env.None? {
      return;
    }
    FinishHere(h, env.value);
    if Terminal(v.status) {
      Go(h, v.token, row, env.value, Idle);
      Untouched(h, v, row, old(h.calls));
      return;
    }
    Go(h, v.token, row, env.value, Finishing(v, if row.own then SelfPlan else Busy));
    if row.own {
      done := FinishSelfVerification(h, v, row);
    } else {
      done := FinishJoin(h, v, row);
    }
  }

  lemma Untouched(h: Host, v: Snapshot, row: Session, before: seq<Effect>)
    requires h.id in h.world.members && h.calls == before
    ensures Concluded(h, v, row, None) && Worked(v, row.failAction, None, before, h.calls) && Unmuted(h, v.token, None, before)
  {
  }

  /** The session of a join. */
  method FinishJoin(h: Host, v: Snapshot, row: Session) returns (done: Option<SessionStatus>)
    requires On(h, Finishing(v, Busy), v.token, row)
    modifies h
    ensures h.Valid() && h.at == Idle && Grows(old(h.log), h.log) && old(h.calls) <= h.calls
    ensures Concluded(h, v, row, done) && Worked(v, row.failAction, done, old(h.calls), h.calls)
  {
    GrowsOn();
    hide Grows, Next, Inv, Exec, With, CallsOf, Played, h.Sound, h.Scripted, FinishPlan, TakenOver, Concluded, Worked;
    done := None;
    var env := Rest(h, v.token, row);
    if env.None? {
      Untouched(h, v, row, old(h.calls));
      return;
    }
    FinishHere(h, env.value);
    if TakenOver(h.Rows()) {
      Go(h, v.token, row, env.value, Idle);
      Untouched(h, v, row, old(h.calls));
      return;
    }
    Go(h, v.token, row, env.value, Finishing(v, Plan));
    done := FinishCleared(h, v, row);
  }

  method FinishCleared(h: Host, v: Snapshot, row: Session) returns (done: Option<SessionStatus>)
    requires On(h, Finishing(v, Plan), v.token, row)
    modifies h
    ensures h.Valid() && h.at == Idle && Grows(old(h.log), h.log) && old(h.calls) <= h.calls
    ensures Concluded(h, v, row, done) && Worked(v, row.failAction, done, old(h.calls), h.calls)
  {
    GrowsOn();
    hide Grows, Next, Inv, Exec, With, CallsOf, Played, h.Sound, h.Scripted, FinishPlan, Concluded, Worked, OpCalls,
         Carried, EndsBy, SentAll, CallsOfOps;
    done := None;
    var env := Rest(h, v.token, row);
    if env.None? {
      Untouched(h, v, row, old(h.calls));
      return;
    }
    FinishHere(h, env.value);
    var authorized := Authorized(h.Chat());
    var plan := FinishPlan(v, row.failAction, authorized, env.value);
    if plan.None? {
      Go(h, v.token, row, env.value, Idle);
      Untouched(h, v, row, old(h.calls));
      return;
    }
    Go(h, v.token, row, env.value, Finishing(v, Perform(plan.value.0, plan.value.1)));
    var status := Work(h, v, row, authorized, env.value);
    if status.Some? {
      done := WriteStatus(h, v, row, status.value);
    }
    WorkTold(h, v, row, authorized && env.value.verificationEnabled, env.value, plan.value.1, CallsOfOps(plan.value.0), done,
             old(h.calls), status.Some?);
  }

  lemma WorkTold(h: Host, v: Snapshot, row: Session, on: bool, env: Env, to: SessionStatus, calls: seq<Call>,
                 done: Option<SessionStatus>, before: seq<Effect>, whole: bool)
    requires h.id in h.world.members && (done.Some? ==> whole && done.value == to)
    requires EndsBy(v.status, v.kickStarted, row.failAction, on, env, to, calls)
    requires Carried(before, h.calls, SentAll(v.token, calls), whole)
    ensures Worked(v, row.failAction, done, before, h.calls)
    ensures done.None? ==> Concluded(h, v, row, done)
  {
    hide Carried, SentAll, EndsBy;
    if whole {
      WholeCarried(before, h.calls, SentAll(v.token, calls));
    }
    assert WorkedAs(v, row.failAction, on, env, to, calls, done, before, h.calls);
  }

  /** All the work is done. */
  method WriteStatus(h: Host, v: Snapshot, row: Session, status: SessionStatus) returns (done: Option<SessionStatus>)
    requires On(h, Finishing(v, Perform([], status)), v.token, row)
    modifies h`world, h`script, h`log, h`at, h`heard
    ensures h.Valid() && h.at == Idle && Grows(old(h.log), h.log)
    ensures Concluded(h, v, row, done) && (done.Some? ==> done.value == status)
  {
    GrowsOn();
    hide Grows, Next, Inv, Exec, With, CallsOf, Played, h.Sound, h.Scripted;
    done := None;
    var env := Rest(h, v.token, row);
    if env.None? {
      return;
    }
    FinishHere(h, env.value);
    Go(h, v.token, row, env.value, Finishing(v, FinishPc.Write(status)));
    done := Conclude(h, v, row, status);
  }

  // ---------------------------------------------------------------- finishSelfVerification

  /** A self session ends verified only after its own unmute, whose calls are the only ones. */
  method FinishSelfVerification(h: Host, v: Snapshot, row: Session) returns (done: Option<SessionStatus>)
    requires On(h, Finishing(v, SelfPlan), v.token, row) && row.own
    modifies h
    ensures h.Valid() && h.at == Idle && Grows(old(h.log), h.log) && old(h.calls) <= h.calls
    ensures Concluded(h, v, row, done) && Unmuted(h, v.token, done, old(h.calls))
    ensures v.status != Completing ==> h.calls == old(h.calls)
  {
    GrowsOn();
    hide Grows, Next, Inv, Exec, With, CallsOf, Played, h.Sound, h.Scripted, Concluded, Unmuted;
    done := None;
    var env := Rest(h, v.token, row);
    if env.None? {
      Untouched(h, v, row, old(h.calls));
      return;
    }
    FinishHere(h, env.value);
    var status := Expired;
    if !Authorized(h.Chat()) || v.status == Releasing {
      status := Cancelled;
    } else if v.status == Completing {
      if Present(env.value.chatStatus) {
        Go(h, v.token, row, env.value, Finishing(v, SelfBusyCheck));
        done := UnmuteSelf(h, v, row);
        return;
      }
      status := SessionStatus.Left;
    } else if v.status != Expiring {
      Go(h, v.token, row, env.value, Idle);
      Untouched(h, v, row, old(h.calls));
      return;
    }
    Go(h, v.token, row, env.value, Finishing(v, FinishPc.Write(status)));
    done := Conclude(h, v, row, status);
    NoneMade(h, v.token, done, old(h.calls));
  }

  lemma NoneMade(h: Host, token: nat, done: Option<SessionStatus>, before: seq<Effect>)
    requires h.id in h.world.members && h.calls == before
    ensures Unmuted(h, token, done, before)
  {
  }

  /** The session's own unmute runs through the punishment workflow. */
  method UnmuteSelf(h: Host, v: Snapshot, row: Session) returns (done: Option<SessionStatus>)
    requires On(h, Finishing(v, SelfBusyCheck), v.token, row) && row.own
    modifies h
    ensures h.Valid() && h.at == Idle && Grows(old(h.log), h.log) && old(h.calls) <= h.calls
    ensures Concluded(h, v, row, done) && Unmuted(h, v.token, done, old(h.calls))
  {
    GrowsOn();
    hide Grows, Next, Inv, Exec, With, CallsOf, Played, h.Sound, h.Scripted, SelfBusy, Concluded, Unmuted, Attempted;
    done := None;
    var env := Rest(h, v.token, row);
    if env.None? {
      Untouched(h, v, row, old(h.calls));
      return;
    }
    FinishHere(h, env.value);
    if SelfBusy(h.Rows(), v.token) {
      Go(h, v.token, row, env.value, Idle);
      Untouched(h, v, row, old(h.calls));
      return;
    }
    var plan := NewRow(SelfUnmute(v.token), 0, Decision(Unmute, false, 0, SelfVerification), Manual, h.world.now);
    Go(h, v.token, row, env.value, Preparing(plan, Some(v)));
    done := PunishSelf(h, plan, v, row);
  }

  method PunishSelf(h: Host, plan: Row, v: Snapshot, row: Session) returns (done: Option<SessionStatus>)
    requires On(h, Preparing(plan, Some(v)), v.token, row) && row.own && plan.key == SelfUnmute(v.token)
    modifies h
    ensures h.Valid() && h.at == Idle && Grows(old(h.log), h.log) && old(h.calls) <= h.calls
    ensures Concluded(h, v, row, done) && Unmuted(h, v.token, done, old(h.calls))
  {
    GrowsOn();
    hide Grows, h.Sound, Attempted, Unmuted, CarriedOut, Concluded;
    LogTells(h);
    ghost var log := h.log;
    var e := PunishLocked(h, plan, Some(v));
    ghost var log' := h.log;
    LogTells(h);
    SessionStays(h, log, v.token, row);
    done := None;
    if e == Nil {
      done := ConcludeSelf(h, v, row);
    } else {
      NotConcluded(h, v, row);
    }
    AttemptStays(h, log', v.token, done, old(h.calls), e == Nil);
  }

  lemma NotConcluded(h: Host, v: Snapshot, row: Session)
    requires h.id in h.world.members
    ensures Concluded(h, v, row, None)
  {
  }

  lemma SessionStays(h: Host, log: seq<Move>, t: nat, row: Session)
    requires h.id in h.world.members && h.Sound() && Grows(log, h.log)
    requires var ss := SessionsOf(Exec(h.start, log), h.id); t < |ss| && Same(row, ss[t])
    ensures t < |h.Sessions()| && Same(row, h.Sessions()[t])
  {
    hide Exec, h.Sound;
    StoredStays(h, log);
    assert SessionEvolves(SessionsOf(Exec(h.start, log), h.id)[t], h.Sessions()[t]);
  }

  lemma AttemptStays(h: Host, log: seq<Move>, t: nat, done: Option<SessionStatus>, before: seq<Effect>, whole: bool)
    requires h.id in h.world.members && h.Sound() && Grows(log, h.log) && (done.Some? ==> whole)
    requires Attempted(h.id.user, RowsOf(Exec(h.start, log), h.id), SelfUnmute(t), before, h.calls, whole)
    ensures Unmuted(h, t, done, before)
  {
    hide Exec, h.Sound, AttemptedOn, Grows;
    if h.calls != before {
      var k: nat, p: Row :| k < |RowsOf(Exec(h.start, log), h.id)| && p.key == SelfUnmute(t)
        && Fixed(p, RowsOf(Exec(h.start, log), h.id)[k]) && AttemptedOn(h.id.user, k, p, before, h.calls, whole);
      StillThere(h, log, k, p);
      PartlyAttempted(h.id.user, k, p, before, h.calls, whole, done.Some?);
    }
  }

  lemma PartlyAttempted(user: int, k: nat, p: Row, a: seq<Effect>, b: seq<Effect>, whole: bool, less: bool)
    requires AttemptedOn(user, k, p, a, b, whole) && (less ==> whole)
    ensures AttemptedOn(user, k, p, a, b, less)
  {
    hide Carried, Programme, SenderProgramme, Announces;
    if whole && !less {
      if user < 0 {
        WholeCarried(a, b, SenderProgramme(k, p));
      } else {
        var banned: bool, told: bool :| Carried(a, b, Programme(k, p, banned, told), true) && Announces(p, told);
        WholeCarried(a, b, Programme(k, p, banned, told));
      }
    }
  }

  method ConcludeSelf(h: Host, v: Snapshot, row: Session) returns (done: Option<SessionStatus>)
    requires On(h, Finishing(v, SelfDone), v.token, row)
    modifies h`world, h`script, h`log, h`at, h`heard
    ensures h.Valid() && h.at == Idle && Grows(old(h.log), h.log)
    ensures Concluded(h, v, row, done) && (done.Some? ==> done.value == Verified || done.value == Cancelled)
  {
    GrowsOn();
    hide Grows, Next, Inv, Exec, With, CallsOf, Played, h.Sound, h.Scripted, SelfUnmuteDone;
    done := None;
    var env := Rest(h, v.token, row);
    if env.None? {
      return;
    }
    FinishHere(h, env.value);
    var status := if SelfUnmuteDone(h.Rows(), v.token) then Verified else Cancelled;
    Go(h, v.token, row, env.value, Finishing(v, FinishPc.Write(status)));
    done := Conclude(h, v, row, status);
  }

  // ---------------------------------------------------------------- AnswerVerification

  lemma AnswerHere(h: Host, env: Env)
    requires h.id in h.world.members && (h.at.AnswerRead? || h.at.AnswerBusy? || h.at.AnswerWrite?)
    requires h.at.token < |h.Sessions()|
    ensures h.StepOf(env) == (AnswerStep(h.Current(), h.world.now), Quiet)
  {
    hide PunishStep, FinishStep, JoinStep, AnswerStep, ReleaseStep, SelfStep, Prepare;
  }

  /** An answer and what it left of the session: the verdict is right of the session at that
      moment, and what it makes of it is stored. */
  ghost predicate Judged(before: Session, after: Session, owner: bool, submitted: int, event: Option<int>, verdict: Verdict) {
    exists v: Session, v': Session, now: int ::
      SessionEvolves(before, v) && Judges(v, owner, submitted, event, now, v', verdict)
      && if verdict == Wrong then after == v' else SessionEvolves(v', after)
  }

  /** The calls since, and the status written, are those of a verification of this session. */
  ghost predicate Finished(h: Host, t: nat, row: Session, done: Option<SessionStatus>, before: seq<Effect>)
    reads h
  {
    exists v: Snapshot :: v.token == t && Concluded(h, v, row, done) && Finishes(h, v, row, done, before)
  }

  /** The session was this one when the run stood at `since`. */
  ghost predicate Began(h: Host, since: seq<Move>, t: nat, first: Session)
    reads h
  {
    var ss := SessionsOf(Exec(h.start, since), h.id);
    Grows(since, h.log) && t < |ss| && ss[t] == first
  }

  lemma BeganEvolves(h: Host, since: seq<Move>, t: nat, first: Session)
    requires h.id in h.world.members && h.Sound() && Began(h, since, t, first)
    ensures t < |h.Sessions()| && SessionEvolves(first, h.Sessions()[t])
  {
    hide Exec, h.Sound, SessionEvolves;
    StoredStays(h, since);
  }

  /** AnswerVerification from the lock on. A wrong answer makes no call and finishes nothing. */
  method AnswerVerification(h: Host, t: nat, row: Session, owner: bool, submitted: int, event: Option<int>)
    returns (verdict: Option<Verdict>, done: Option<SessionStatus>)
    requires On(h, AnswerRead(t, owner, submitted, event), t, row)
    modifies h
    ensures h.Valid() && h.at == Idle && Grows(old(h.log), h.log) && old(h.calls) <= h.calls
    ensures verdict.Some? ==>
      t < |h.Sessions()| && Judged(old(h.Sessions()[t]), h.Sessions()[t], owner, submitted, event, verdict.value)
    ensures verdict == Some(Wrong) ==> done.None? && h.calls == old(h.calls)
    ensures Finished(h, t, row, done, old(h.calls))
  {
    GrowsOn();
    hide Grows, Next, Inv, Exec, With, CallsOf, Played, h.Sound, h.Scripted, TakenOver, Tables.Answer, Finished, Judged;
    verdict, done := None, None;
    LogTells(h);
    ghost var since, first := h.log, h.Sessions()[t];
    var env := Rest(h, t, row);
    if env.None? {
      NothingFinished(h, t, row, old(h.calls));
      return;
    }
    AnswerHere(h, env.value);
    var v := h.Sessions()[t];
    if v.status == Verified || v.status == Cancelled || v.status == Releasing {
      Go(h, t, row, env.value, Idle);
      NothingFinished(h, t, row, old(h.calls));
      return;
    }
    if !row.own {
      Go(h, t, row, env.value, AnswerBusy(t, owner, submitted, event));
      verdict, done := AnswerJoin(h, t, row, owner, submitted, event, since, first);
    } else if v.status == Completing {
      Go(h, t, row, env.value, Finishing(SnapshotOf(v, t), Enter));
      done := FinishAnswered(h, SnapshotOf(v, t), row);
    } else {
      Go(h, t, row, env.value, AnswerWrite(t, owner, submitted, event));
      verdict, done := SubmitAnswer(h, t, row, owner, submitted, event, since, first);
    }
  }

  lemma NothingFinished(h: Host, t: nat, row: Session, before: seq<Effect>)
    requires h.id in h.world.members && h.calls == before
    ensures Finished(h, t, row, None, before)
  {
    hide Concluded, Worked, Unmuted;
    var v := Snapshot(t, Completing, false);
    Untouched(h, v, row, before);
    assert Finishes(h, v, row, None, before);
  }

  method FinishAnswered(h: Host, v: Snapshot, row: Session) returns (done: Option<SessionStatus>)
    requires On(h, Finishing(v, Enter), v.token, row)
    modifies h
    ensures h.Valid() && h.at == Idle && Grows(old(h.log), h.log) && old(h.calls) <= h.calls
    ensures Finished(h, v.token, row, done, old(h.calls))
  {
    hide On, h.Valid, Grows, Concluded, Worked, Unmuted;
    done := FinishVerification(h, v, row);
  }

  /** A join's session waits while a punishment is pending. */
  method AnswerJoin(h: Host, t: nat, row: Session, owner: bool, submitted: int, event: Option<int>,
                    ghost since: seq<Move>, ghost first: Session)
    returns (verdict: Option<Verdict>, done: Option<SessionStatus>)
    requires On(h, AnswerBusy(t, owner, submitted, event), t, row) && Began(h, since, t, first)
    modifies h
    ensures h.Valid() && h.at == Idle && Grows(old(h.log), h.log) && old(h.calls) <= h.calls
    ensures verdict.Some? ==> t < |h.Sessions()| && Judged(first, h.Sessions()[t], owner, submitted, event, verdict.value)
    ensures verdict == Some(Wrong) ==> done.None? && h.calls == old(h.calls)
    ensures Finished(h, t, row, done, old(h.calls))
  {
    GrowsOn();
    hide Grows, Next, Inv, Exec, With, CallsOf, Played, h.Sound, h.Scripted, TakenOver, Tables.Answer, Finished, Judged;
    verdict, done := None, None;
    var env := Rest(h, t, row);
    if env.None? {
      NothingFinished(h, t, row, old(h.calls));
      return;
    }
    AnswerHere(h, env.value);
    var v := h.Sessions()[t];
    if TakenOver(h.Rows()) {
      Go(h, t, row, env.value, Idle);
      NothingFinished(h, t, row, old(h.calls));
    } else if v.status == Completing {
      Go(h, t, row, env.value, Finishing(SnapshotOf(v, t), Enter));
      done := FinishAnswered(h, SnapshotOf(v, t), row);
    } else {
      Go(h, t, row, env.value, AnswerWrite(t, owner, submitted, event));
      verdict, done := SubmitAnswer(h, t, row, owner, submitted, event, since, first);
    }
  }

  lemma AnswerKeepsSession(v: Session, owner: bool, submitted: int, event: Option<int>, now: int)
    ensures Same(v, Tables.Answer(v, owner, submitted, event, now).0)
  {
  }

  /** Store.Answer, and on success the rest of the verification. */
  method SubmitAnswer(h: Host, t: nat, row: Session, owner: bool, submitted: int, event: Option<int>,
                      ghost since: seq<Move>, ghost first: Session)
    returns (verdict: Option<Verdict>, done: Option<SessionStatus>)
    requires On(h, AnswerWrite(t, owner, submitted, event), t, row) && Began(h, since, t, first)
    modifies h
    ensures h.Valid() && h.at == Idle && Grows(old(h.log), h.log) && old(h.calls) <= h.calls
    ensures verdict.Some? ==> t < |h.Sessions()| && Judged(first, h.Sessions()[t], owner, submitted, event, verdict.value)
    ensures verdict == Some(Wrong) ==> done.None? && h.calls == old(h.calls)
    ensures Finished(h, t, row, done, old(h.calls))
  {
    GrowsOn();
    hide Grows, Next, Inv, Exec, With, CallsOf, Played, h.Sound, h.Scripted, Tables.Answer, Finished, Judges,
         SessionEvolves;
    verdict, done := None, None;
    var env := Rest(h, t, row);
    if env.None? {
      NothingFinished(h, t, row, old(h.calls));
      return;
    }
    AnswerHere(h, env.value);
    BeganEvolves(h, since, t, first);
    ghost var (v, now) := (h.Sessions()[t], h.world.now);
    var v', r := Tables.Answer(h.Sessions()[t], owner, submitted, event, h.world.now).0,
                 Tables.Answer(h.Sessions()[t], owner, submitted, event, h.world.now).1;
    AnswerKeepsSession(v, owner, submitted, event, now);
    verdict := Some(r);
    Update(h, t, row, v', env.value, if r == Wrong then Idle else Finishing(SnapshotOf(v', t), Enter));
    LogTells(h);
    ghost var log := h.log;
    if r == Correct {
      done := FinishAnswered(h, SnapshotOf(v', t), row);
      BeganEvolves(h, log, t, v');
    } else {
      NothingFinished(h, t, row, old(h.calls));
    }
    AnswerJudges(v, owner, submitted, event, now);
  }

  // ---------------------------------------------------------------- Join

  lemma JoinHere(h: Host, env: Env)
    requires h.id in h.world.members
    requires h.at.JoinBusy? || h.at.JoinRead? || h.at.JoinInsert? || h.at.JoinRestrict?
    ensures h.StepOf(env) == JoinStep(h.Current(), h.world.now, env)
    ensures h.Current() == h.Current().(rows := h.Rows()) == h.Current().(sessions := h.Sessions())
  {
    hide PunishStep, FinishStep, JoinStep, AnswerStep, ReleaseStep, SelfStep, Prepare;
  }

  /** At most one call was made, to restrict the member of a session that is stored. */
  predicate Restricted(h: Host, before: seq<Effect>)
    reads h
    requires h.id in h.world.members
  {
    h.calls == before
    || exists t, o :: 0 <= t < |h.Sessions()| && h.calls == before + [Sent(FromSession(t), Restrict, o)]
  }

  /** Join, from the lock on: the session is stored before the member is restricted. */
  method Join(h: Host, draft: Session)
    requires h.Valid() && h.at == JoinBusy(draft)
    modifies h
    ensures h.Valid() && h.at == Idle && Grows(old(h.log), h.log)
    ensures Restricted(h, old(h.calls))
  {
    GrowsOn();
    hide Grows, Next, Inv, Exec, With, CallsOf, Played, h.Sound, h.Scripted, TakenOver, ActiveSession;
    var env := h.Await();
    if env.None? {
      return;
    }
    JoinHere(h, env.value);
    if TakenOver(h.Rows()) || env.value.protected {
      h.Write(h.Rows(), h.Sessions(), env.value, Idle);
      return;
    }
    h.Write(h.Rows(), h.Sessions(), env.value, JoinRead(draft));
    JoinCleared(h, draft);
  }

  method JoinCleared(h: Host, draft: Session)
    requires h.Valid() && h.at == JoinRead(draft)
    modifies h
    ensures h.Valid() && h.at == Idle && Grows(old(h.log), h.log)
    ensures Restricted(h, old(h.calls))
  {
    GrowsOn();
    hide Grows, Next, Inv, Exec, With, CallsOf, Played, h.Sound, h.Scripted, ActiveSession;
    var env := h.Await();
    if env.None? {
      return;
    }
    JoinHere(h, env.value);
    var t := ActiveSession(h.Sessions());
    if t.None? {
      h.Write(h.Rows(), h.Sessions(), env.value, JoinInsert(draft));
      CreateAndRestrict(h, draft);
    } else if h.Sessions()[t.value].status != VPending {
      h.Write(h.Rows(), h.Sessions(), env.value, Idle);
    } else {
      h.Write(h.Rows(), h.Sessions(), env.value, JoinRestrict(t.value));
      RestrictNewcomer(h, t.value);
    }
  }

  method CreateAndRestrict(h: Host, draft: Session)
    requires h.Valid() && h.at == JoinInsert(draft)
    modifies h
    ensures h.Valid() && h.at == Idle && Grows(old(h.log), h.log)
    ensures Restricted(h, old(h.calls))
  {
    GrowsOn();
    hide Grows, Next, Inv, Exec, With, CallsOf, Played, h.Sound, h.Scripted;
    var env := h.Await();
    if env.None? {
      return;
    }
    JoinHere(h, env.value);
    var token := |h.Sessions()|;
    h.Write(h.Rows(), CreateSession(h.Sessions(), NewSession(false, draft.answer, draft.failAction, draft.expiresAt, h.world.now)),
            env.value, JoinRestrict(token));
    RestrictNewcomer(h, token);
  }

  method RestrictNewcomer(h: Host, t: nat)
    requires h.Valid() && h.at == JoinRestrict(t) && t < |h.Sessions()|
    modifies h
    ensures h.Valid() && h.at == Idle && Grows(old(h.log), h.log)
    ensures Restricted(h, old(h.calls))
  {
    GrowsOn();
    hide Grows, Next, Inv, Exec, With, CallsOf, Played, h.Sound, h.Scripted;
    var env := h.Await();
    if env.None? {
      return;
    }
    JoinHere(h, env.value);
    var o := h.Send(FromSession(t), Restrict, env.value, h.Rows(), Idle);
  }

  // ---------------------------------------------------------------- release tasks

  lemma ReleaseHere(h: Host, env: Env)
    requires h.id in h.world.members && h.at.ReleasingRow? && h.at.row < |h.Rows()|
    ensures h.StepOf(env) == ReleaseStep(h.Current(), h.world.now, env)
    ensures h.Current() == h.Current().(rows := h.Rows()) == h.Current().(sessions := h.Sessions())
  {
    hide PunishStep, FinishStep, JoinStep, AnswerStep, ReleaseStep, SelfStep, Prepare;
  }

  /** A mute is undone by restoring the member, a ban or kick by an unban. */
  function LiftCall(k: nat, r: Row, o: Outcome): Effect {
    Sent(FromRelease(k), if r.decision.action == Mute then Restore else UnbanMember, o)
  }

  /** At most one call was made, and it is the one that undoes the row's action. */
  predicate Lifted(k: nat, r: Row, before: seq<Effect>, after: seq<Effect>) {
    after == before || exists o :: after == before + [LiftCall(k, r, o)]
  }

  /** How a release was recorded: postponed, or finished with the sessions it covers closed. */
  ghost predicate Settled(h: Host, k: nat, result: Option<ReleaseResult>)
    reads h
  {
    h.id in h.world.members
    && (result.Some? ==>
          k < |h.Rows()|
          && if result.value == NotReleased then h.Rows()[k].releaseAt == Some(h.world.now + 30 * SECOND)
             else h.Rows()[k].settled && !h.Rows()[k].releaseNeeded
                  && (result.value == Restored ==>
                        forall t :: 0 <= t < |h.Sessions()| && Active(h.Sessions()[t]) ==>
                                      h.Sessions()[t].createdAt > h.Rows()[k].createdAt))
  }

  /** sweepPermissionReleases for one due row; `result` is what was recorded, and `Restored`
      only after an acknowledged call. */
  method ReleaseRow(h: Host, k: nat) returns (result: Option<ReleaseResult>)
    requires h.Valid() && h.at == ReleasingRow(k, LookForNewer) && k < |h.Rows()|
    modifies h
    ensures h.Valid() && h.at == Idle && Grows(old(h.log), h.log)
    ensures Lifted(k, old(h.Rows()[k]), old(h.calls), h.calls) && Settled(h, k, result)
    ensures result == Some(Restored) ==>
      h.calls == old(h.calls) + [LiftCall(k, old(h.Rows()[k]), Accepted)]
    ensures result == Some(Superseded) ==> h.calls == old(h.calls)
  {
    GrowsOn();
    hide Grows, Next, Inv, Exec, With, CallsOf, Played, h.Sound, h.Scripted, NewerPermission, Settled, Lifted;
    var r := h.Rows()[k];
    NotLifted(k, r, h.calls);
    result := None;
    var env := Pause(h, k, r);
    if env.None? {
      NotSettled(h, k);
      return;
    }
    ReleaseHere(h, env.value);
    if env.value.outcome == Unknown {
      h.Write(h.Rows(), h.Sessions(), env.value, ReleasingRow(k, RecordRelease(NotReleased)));
      result := FinishPermissionRelease(h, k, r, NotReleased);
    } else if NewerPermission(h.Rows(), h.Sessions(), r.createdAt) {
      h.Write(h.Rows(), h.Sessions(), env.value, ReleasingRow(k, RecordRelease(Superseded)));
      result := FinishPermissionRelease(h, k, r, Superseded);
    } else {
      h.Write(h.Rows(), h.Sessions(), env.value, ReleasingRow(k, ReleasePc.ReleaseCall));
      result := LiftRestriction(h, k, r);
    }
  }

  lemma NotLifted(k: nat, r: Row, before: seq<Effect>)
    ensures Lifted(k, r, before, before)
  {
  }

  lemma NotSettled(h: Host, k: nat)
    requires h.id in h.world.members
    ensures Settled(h, k, None)
  {
  }

  method LiftRestriction(h: Host, k: nat, r: Row) returns (result: Option<ReleaseResult>)
    requires Standing(h, ReleasingRow(k, ReleasePc.ReleaseCall), k, r)
    modifies h
    ensures h.Valid() && h.at == Idle && Grows(old(h.log), h.log)
    ensures Lifted(k, r, old(h.calls), h.calls) && Settled(h, k, result)
    ensures result == Some(Restored) ==> h.calls == old(h.calls) + [LiftCall(k, r, Accepted)]
    ensures result != Some(Superseded)
  {
    GrowsOn();
    hide Grows, Next, Inv, Exec, With, CallsOf, Played, h.Sound, h.Scripted, Settled;
    result := None;
    var env := Pause(h, k, r);
    if env.None? {
      NotSettled(h, k);
      return;
    }
    ReleaseHere(h, env.value);
    var c := if r.decision.action == Mute then Restore else UnbanMember;
    var o := h.Send(FromRelease(k), c, env.value, h.Rows(),
                    ReleasingRow(k, RecordRelease(if env.value.outcome == Accepted then Restored else NotReleased)));
    result := FinishPermissionRelease(h, k, r, if o == Accepted then Restored else NotReleased);
    assert h.calls == old(h.calls) + [LiftCall(k, r, o)];
  }

  method FinishPermissionRelease(h: Host, k: nat, r: Row, result: ReleaseResult) returns (recorded: Option<ReleaseResult>)
    requires Standing(h, ReleasingRow(k, RecordRelease(result)), k, r)
    modifies h`world, h`script, h`log, h`at, h`heard
    ensures h.Valid() && h.at == Idle && Grows(old(h.log), h.log)
    ensures Settled(h, k, recorded) && (recorded.Some? ==> recorded.value == result)
  {
    GrowsOn();
    hide Grows, Next, Inv, Exec, With, CallsOf, Played, h.Sound, h.Scripted;
    recorded := None;
    var env := Pause(h, k, r);
    if env.None? {
      return;
    }
    ReleaseHere(h, env.value);
    var stored := h.Rows()[k];
    recorded := Some(result);
    if result == NotReleased {
      h.Write(h.Rows()[k := PostponeRelease(stored, h.world.now)], h.Sessions(), env.value, Idle);
    } else {
      var sessions := if result == Restored then CancelUpTo(h.Sessions(), stored.createdAt) else h.Sessions();
      h.Write(h.Rows()[k := FinishRelease(stored)], sessions, env.value, Idle);
    }
  }

  // ---------------------------------------------------------------- StartSelfVerification

  lemma SelfHere(h: Host, env: Env)
    requires h.id in h.world.members && (h.at.SelfStart? || h.at.SelfInsert?)
    ensures h.StepOf(env) == (SelfStep(h.Chat(), h.Current(), h.world.now, env), Quiet)
    ensures h.Current() == h.Current().(rows := h.Rows()) == h.Current().(sessions := h.Sessions())
  {
    hide PunishStep, FinishStep, JoinStep, AnswerStep, ReleaseStep, SelfStep, Prepare;
  }

  /** The member's only open session is the one just stored. */
  ghost predicate Opened(h: Host, t: nat, v: Session)
    reads h
  {
    h.id in h.world.members && |h.Sessions()| == t + 1 && h.Sessions()[t] == v
    && forall u :: 0 <= u < t ==> !Active(h.Sessions()[u])
  }

  /** StartSelfVerification from the lock on: no call, and the stored session replaces every
      open one. */
  method StartSelfVerification(h: Host, draft: Session) returns (token: Option<nat>)
    requires h.Valid() && h.at == SelfStart(draft)
    modifies h`world, h`script, h`log, h`at, h`heard
    ensures h.Valid() && h.at == Idle && Grows(old(h.log), h.log)
    ensures token.Some? ==>
      Opened(h, token.value, NewSession(true, draft.answer, FailMute, draft.expiresAt, h.world.now))
  {
    GrowsOn();
    hide Grows, Next, Inv, Exec, With, CallsOf, Played, h.Sound, h.Scripted, TakenOver, Opened;
    token := None;
    var env := h.Await();
    if env.None? {
      return;
    }
    SelfHere(h, env.value);
    var c := env.value.chatStatus;
    if !Authorized(h.Chat()) || !Present(c) || !c.Restricted? || TakenOver(h.Rows()) {
      h.Write(h.Rows(), h.Sessions(), env.value, Idle);
      return;
    }
    var open := ActiveSession(h.Sessions());
    if open.Some? && h.Sessions()[open.value].own && h.Sessions()[open.value].status == VPending
       && h.world.now < h.Sessions()[open.value].expiresAt {
      h.Write(h.Rows(), h.Sessions(), env.value, Idle);
      return;
    }
    h.Write(h.Rows(), h.Sessions(), env.value, SelfInsert(draft));
    token := InsertSelf(h, draft);
  }

  method InsertSelf(h: Host, draft: Session) returns (token: Option<nat>)
    requires h.Valid() && h.at == SelfInsert(draft)
    modifies h`world, h`script, h`log, h`at, h`heard
    ensures h.Valid() && h.at == Idle && Grows(old(h.log), h.log)
    ensures token.Some? ==>
      Opened(h, token.value, NewSession(true, draft.answer, FailMute, draft.expiresAt, h.world.now))
  {
    GrowsOn();
    hide Grows, Next, Inv, Exec, With, CallsOf, Played, h.Sound, h.Scripted;
    var env := h.Await();
    if env.None? {
      return None;
    }
    SelfHere(h, env.value);
    token := Some(|h.Sessions()|);
    h.Write(h.Rows(), CreateSelfSession(h.Sessions(), NewSession(true, draft.answer, FailMute, draft.expiresAt, h.world.now)),
            env.value, Idle);
  }
}
