/** How the verification of a join ends: which calls lead to which status. */
module Endings {
  import opened Domain
  import opened Tables
  import opened Machine
  import opened Invariant
  import opened Preservation
  import opened StepSafety
  import opened Evolution
  import opened World
  import opened Runs
  import opened Receipts
  import opened Sessions
  import opened Locked

  // ---------------------------------------------------------------- what was read, and what follows

  /** The member and the chat as they were read decide how a verification ends and which calls
      that takes. `on` says that the chat is approved and its verification switched on. */
  predicate EndsBy(status: SessionStatus, kickStarted: bool, fail: FailAction, on: bool, env: Env,
                   to: SessionStatus, calls: seq<Call>) {
    var c := env.chatStatus;
    var admin := c == Creator || c == Administrator;
    var present := admin || c == Member || c == Restricted(true);
    if status == Releasing || !on then
      to == Cancelled
      && calls == (if c.Restricted? then [Restore] else []) + (if kickStarted && fail == FailKick then [UnbanMember] else [])
    else if status == Completing then
      if !present then to == Left && calls == []
      else if env.blacklisted && !admin && !env.superAdmin then to == Blocked && calls == [BanMember]
      else to == Verified && calls == if admin then [] else [Restore]
    else
      status == Expiring
      && if env.protected then
           if c.Restricted? then to == Cancelled && calls == [Restore] else to == Expired && calls == []
         else
           to == Expired
           && calls == match fail
              case FailKick => if present then [BanMember, UnbanMember] else if kickStarted then [UnbanMember] else []
              case FailBan => if present then [BanMember] else []
              case FailMute => []
  }

  /** The calls of a list of permission work. */
  function CallsOfOps(ops: seq<SessionOp>): seq<Call> {
    if ops == [] then []
    else (if ops[0] == OpMarkKick || ops[0] == OpConfirm then [] else [SessionCall(ops[0])]) + CallsOfOps(ops[1..])
  }

  lemma ShortLists()
    ensures CallsOfOps([]) == [] && CallsOfOps([OpRestore]) == [Restore] && CallsOfOps([OpBan]) == [BanMember]
    ensures CallsOfOps([OpUnban, OpConfirm]) == [UnbanMember]
    ensures CallsOfOps([OpRestore, OpUnban, OpConfirm]) == [Restore, UnbanMember]
    ensures CallsOfOps([OpMarkKick, OpBan, OpUnban, OpConfirm]) == [BanMember, UnbanMember]
  {
    assert CallsOfOps([OpConfirm]) == [];
    assert [OpUnban, OpConfirm][1..] == [OpConfirm];
    assert CallsOfOps([OpUnban, OpConfirm]) == [UnbanMember];
    assert [OpRestore, OpUnban, OpConfirm][1..] == [OpUnban, OpConfirm];
    assert [OpBan, OpUnban, OpConfirm][1..] == [OpUnban, OpConfirm];
    assert CallsOfOps([OpBan, OpUnban, OpConfirm]) == [BanMember, UnbanMember];
    assert [OpMarkKick, OpBan, OpUnban, OpConfirm][1..] == [OpBan, OpUnban, OpConfirm];
  }

  lemma Sums()
    ensures ReleaseKick() == [OpUnban, OpConfirm]
    ensures [OpRestore] + [OpUnban, OpConfirm] == [OpRestore, OpUnban, OpConfirm] && [OpRestore] + [] == [OpRestore]
    ensures var no: seq<SessionOp> := []; no + [OpUnban, OpConfirm] == [OpUnban, OpConfirm] && no + no == no
    ensures [OpMarkKick, OpBan] + [OpUnban, OpConfirm] == [OpMarkKick, OpBan, OpUnban, OpConfirm]
    ensures [Restore] + [UnbanMember] == [Restore, UnbanMember] && [Restore] + [] == [Restore]
    ensures var no: seq<Call> := []; no + [UnbanMember] == [UnbanMember] && no + no == no
  {
  }

  /** The machine's plan is the right one. */
  lemma PlanEndsBy(v: Snapshot, fail: FailAction, authorized: bool, env: Env)
    requires FinishPlan(v, fail, authorized, env).Some?
    ensures var p := FinishPlan(v, fail, authorized, env).value;
      && EndsBy(v.status, v.kickStarted, fail, authorized && env.verificationEnabled, env, p.1, CallsOfOps(p.0))
  {
    hide CallsOfOps, ReleaseKick;
    ShortLists();
    Sums();
  }

  /** An unban is confirmed, as the last piece of the work. */
  lemma PlanConfirms(v: Snapshot, fail: FailAction, authorized: bool, env: Env)
    requires FinishPlan(v, fail, authorized, env).Some?
    ensures var ops := FinishPlan(v, fail, authorized, env).value.0;
      UnbanMember in CallsOfOps(ops) ==> ops != [] && ops[|ops| - 1] == OpConfirm
  {
    hide CallsOfOps, ReleaseKick;
    ShortLists();
    Sums();
  }

  // ---------------------------------------------------------------- the program's way through its work

  /** The program is at the permission work, or about to write the status it led to. */
  predicate Working(p: Proc) {
    p.Finishing? && (p.fpc.Perform? || p.fpc.Write?)
  }

  function Remaining(pc: FinishPc): seq<SessionOp>
    requires pc.Perform? || pc.Write?
  {
    if pc.Perform? then pc.ops else []
  }

  /** The acknowledged calls of one piece of the work. */
  function Acks(t: nat, op: SessionOp): seq<Effect> {
    if op == OpMarkKick || op == OpConfirm then [] else [Sent(FromSession(t), SessionCall(op), Accepted)]
  }

  /** One step of the work. */
  predicate WorkStep(s: MemberState, g: Group, env: Env, x: Result) {
    s.proc.Finishing? && Working(x.0.proc) && x.0.proc.v == s.proc.v && s.proc.v.token < |s.sessions|
    && match s.proc.fpc
       case Plan =>
         x.0.proc.fpc.Perform? && x.1 == Quiet
         && FinishPlan(s.proc.v, s.sessions[s.proc.v.token].failAction, Authorized(g), env)
            == Some((x.0.proc.fpc.ops, x.0.proc.fpc.to))
       case Perform(ops, to) =>
         x.0.proc.fpc.to == to
         && if ops == [] then x.0.proc.fpc.Write? && x.1 == Quiet
            else
              x.0.proc.fpc == Perform(ops[1..], to) && Noise(x.1) == Acks(s.proc.v.token, ops[0])
              && (ops[0] == OpConfirm ==> env.chatStatus != Kicked)
       case _ => false
  }

  function Noise(e: Effect): seq<Effect> {
    if e == Quiet then [] else [e]
  }

  lemma FinishWorks(g: Group, s: MemberState, now: int, env: Env)
    requires s.proc.Finishing? && s.proc.v.token < |s.sessions|
    requires s.proc.fpc.SelfPlan? || s.proc.fpc.SelfDone? ==> s.sessions[s.proc.v.token].own
    requires var p := FinishStep(g, s, now, env).0.proc;
      Working(p) && (p.fpc.Write? ==> !s.sessions[s.proc.v.token].own)
    ensures WorkStep(s, g, env, FinishStep(g, s, now, env))
  {
    hide FinishPlan, TakenOver, SelfBusy, SelfUnmuteDone, BeginKick, FinishSession;
  }

  lemma OthersDoNotWork(id: MemberId, g: Group, now: int, s: MemberState, l: Label)
    requires !(l.Go? && s.proc.Finishing?) && Working(Next(id, g, now, s, l).0.proc)
    ensures Next(id, g, now, s, l).0.proc == s.proc && Next(id, g, now, s, l).1 == Quiet
  {
    hide PunishStep;
    if l.Go? && s.proc.Punishing? {
      PunishDoesNotWork(id, g, now, s, l.env);
    }
  }

  lemma PunishDoesNotWork(id: MemberId, g: Group, now: int, s: MemberState, env: Env)
    requires s.proc.Punishing?
    ensures !Working(PunishStep(id, g, now, s, env).0.proc)
  {
    hide NewerManual, CompleteTakeover, StepDeleted, StepActed, StepDone, StepSkipped, InsertWorkflow, MarkKickBanned, Noted,
         RejectPunishment, FailPunishment, StartPermission, UntilDate;
  }

  // ---------------------------------------------------------------- over a run

  /** The calls between move i and move n. */
  function CallsBetween(w: World, ms: seq<Move>, id: MemberId, i: nat, n: nat): seq<Effect>
    requires i <= n <= |ms|
  {
    CallsOf(Before(w, ms, i), ms[i..n], id)
  }

  lemma OneCallMore(w: World, ms: seq<Move>, id: MemberId, i: nat, n: nat)
    requires i <= n < |ms|
    ensures CallsBetween(w, ms, id, i, n + 1) == CallsBetween(w, ms, id, i, n) + Noise(EffectOn(Before(w, ms, n), ms[n], id))
    ensures CallsBetween(w, ms, id, i, i) == []
  {
    hide Apply, EffectOn;
    assert ms[i..n + 1] == ms[i..n] + [ms[n]];
    assert ms[..i] + ms[i..n] == ms[..n];
    ExecConcat(w, ms[..i], ms[i..n]);
    CallsAppend(Before(w, ms, i), ms[i..n], ms[n], id);
    assert ms[i..i] == [];
  }

  function AllAcks(t: nat, ops: seq<SessionOp>): seq<Effect> {
    if ops == [] then [] else AllAcks(t, ops[..|ops| - 1]) + Acks(t, ops[|ops| - 1])
  }

  /** The program is still the one that read the member. */
  predicate SameWork(w: World, ms: seq<Move>, id: MemberId, x: nat, v: Snapshot)
    requires x <= |ms|
  {
    var p := MemberOf(Before(w, ms, x), id).proc;
    Working(p) && p.v == v
  }

  /** Move j is the read that confirms an unban: the member is not banned. */
  predicate ConfirmedAt(w: World, ms: seq<Move>, id: MemberId, j: nat, v: Snapshot)
    requires j < |ms|
  {
    var p := MemberOf(Before(w, ms, j), id).proc;
    && p.Finishing? && p.v == v && p.fpc.Perform? && p.fpc.ops == [OpConfirm]
    && ms[j].Step? && ms[j].id == id && ms[j].l.Go? && ms[j].l.env.chatStatus != Kicked
  }

  /** Move i is the read at the start of the work, after which the program did nothing else. */
  predicate ReadAt(w: World, ms: seq<Move>, id: MemberId, i: nat, n: nat, v: Snapshot)
    requires i < n <= |ms|
  {
    && MemberOf(Before(w, ms, i), id).proc == Finishing(v, Plan) && v.token < |SessionsOf(Before(w, ms, i), id)|
    && ms[i].Step? && ms[i].id == id && ms[i].l.Go?
    && (forall x :: i < x <= n ==> SameWork(w, ms, id, x, v))
  }

  /** What is left of the plan at move n, and what was done of it. */
  ghost predicate Traced(w: World, ms: seq<Move>, id: MemberId, i: nat, n: nat, v: Snapshot, pc: FinishPc, all: seq<SessionOp>)
    requires i < n <= |ms|
  {
    && (pc.Perform? || pc.Write?) && ReadAt(w, ms, id, i, n, v)
    && var u := Before(w, ms, i);
    && FinishPlan(v, SessionsOf(u, id)[v.token].failAction, Authorized(GroupOf(u, id.chat)), ms[i].l.env) == Some((all, pc.to))
    && |Remaining(pc)| <= |all| && all[|all| - |Remaining(pc)|..] == Remaining(pc)
    && CallsBetween(w, ms, id, i, n) == AllAcks(v.token, all[..|all| - |Remaining(pc)|])
    && (Remaining(pc) == [] && all != [] && all[|all| - 1] == OpConfirm ==>
          exists j :: i < j < n && ConfirmedAt(w, ms, id, j, v) && CallsBetween(w, ms, id, i, j) == CallsBetween(w, ms, id, i, n))
  }

  lemma ReadOn(w: World, ms: seq<Move>, id: MemberId, i: nat, n: nat, v: Snapshot)
    requires i < n < |ms| && ReadAt(w, ms, id, i, n, v) && SameWork(w, ms, id, n + 1, v)
    ensures ReadAt(w, ms, id, i, n + 1, v)
  {
    hide SameWork;
  }

  /** A move that leaves the program where it is. */
  lemma TraceStays(w: World, ms: seq<Move>, id: MemberId, i: nat, n: nat, v: Snapshot, pc: FinishPc, all: seq<SessionOp>)
    requires i < n < |ms| && Traced(w, ms, id, i, n, v, pc, all) && SameWork(w, ms, id, n + 1, v)
    requires EffectOn(Before(w, ms, n), ms[n], id) == Quiet
    ensures Traced(w, ms, id, i, n + 1, v, pc, all)
  {
    hide SameWork, ReadAt, FinishPlan, CallsBetween, ConfirmedAt, EffectOn, AllAcks;
    ReadOn(w, ms, id, i, n, v);
    OneCallMore(w, ms, id, i, n);
  }

  /** The next piece of the work is done. */
  lemma TraceGoes(w: World, ms: seq<Move>, id: MemberId, i: nat, n: nat, v: Snapshot, pc: FinishPc, pc': FinishPc, all: seq<SessionOp>)
    requires i < n < |ms| && Traced(w, ms, id, i, n, v, pc, all) && SameWork(w, ms, id, n + 1, v)
    requires pc.Perform? && pc.ops != [] && pc' == Perform(pc.ops[1..], pc.to)
    requires Noise(EffectOn(Before(w, ms, n), ms[n], id)) == Acks(v.token, pc.ops[0])
    requires pc.ops == [OpConfirm] ==> ConfirmedAt(w, ms, id, n, v)
    ensures Traced(w, ms, id, i, n + 1, v, pc', all)
  {
    hide SameWork, ReadAt, FinishPlan, CallsBetween, ConfirmedAt, EffectOn;
    ReadOn(w, ms, id, i, n, v);
    OneCallMore(w, ms, id, i, n);
    var k := |all| - |pc.ops|;
    assert all[k] == pc.ops[0] && all[..k + 1][..k] == all[..k];
    assert all[k + 1..] == all[k..][1..];
    if |pc.ops| == 1 && pc.ops[0] == OpConfirm {
      assert pc.ops == [OpConfirm];
      assert CallsBetween(w, ms, id, i, n + 1) == CallsBetween(w, ms, id, i, n);
    }
    if pc.ops[1..] == [] {
      assert all[|all| - 1] == pc.ops[0];
    }
  }

  /** All the work is done. */
  lemma TraceEnds(w: World, ms: seq<Move>, id: MemberId, i: nat, n: nat, v: Snapshot, to: SessionStatus, all: seq<SessionOp>)
    requires i < n < |ms| && Traced(w, ms, id, i, n, v, Perform([], to), all) && SameWork(w, ms, id, n + 1, v)
    requires EffectOn(Before(w, ms, n), ms[n], id) == Quiet
    ensures Traced(w, ms, id, i, n + 1, v, FinishPc.Write(to), all)
  {
    hide Traced;
    TraceStays(w, ms, id, i, n, v, Perform([], to), all);
    SamePlace(w, ms, id, i, n + 1, v, to, all);
  }

  lemma SamePlace(w: World, ms: seq<Move>, id: MemberId, i: nat, n: nat, v: Snapshot, to: SessionStatus, all: seq<SessionOp>)
    requires i < n <= |ms|
    ensures Traced(w, ms, id, i, n, v, Perform([], to), all) == Traced(w, ms, id, i, n, v, FinishPc.Write(to), all)
  {
    hide ReadAt, FinishPlan, CallsBetween, ConfirmedAt;
  }

  /** The read that starts the work. */
  lemma TraceStarts(w: World, ms: seq<Move>, id: MemberId, n: nat, v: Snapshot, all: seq<SessionOp>, to: SessionStatus)
    requires n < |ms| && SameWork(w, ms, id, n + 1, v)
    requires MemberOf(Before(w, ms, n), id).proc == Finishing(v, Plan) && v.token < |SessionsOf(Before(w, ms, n), id)|
    requires ms[n].Step? && ms[n].id == id && ms[n].l.Go? && EffectOn(Before(w, ms, n), ms[n], id) == Quiet
    requires var u := Before(w, ms, n);
      FinishPlan(v, SessionsOf(u, id)[v.token].failAction, Authorized(GroupOf(u, id.chat)), ms[n].l.env) == Some((all, to))
    ensures Traced(w, ms, id, n, n + 1, v, Perform(all, to), all)
  {
    hide SameWork, FinishPlan, CallsBetween, ConfirmedAt, EffectOn;
    OneCallMore(w, ms, id, n, n);
    assert all[..0] == [];
  }

  /** How a program comes to its work, in one move. */
  lemma WorkArises(w: World, m: Move, id: MemberId)
    requires Inv(w)
    requires var p := MemberOf(Apply(w, m), id).proc;
      Working(p) && (p.fpc.Write? ==> p.v.token < |SessionsOf(Apply(w, m), id)| && !SessionsOf(Apply(w, m), id)[p.v.token].own)
    ensures var (s, p) := (MemberOf(w, id), MemberOf(Apply(w, m), id).proc);
      || (m.Step? && m.id == id && m.l.Go?
          && WorkStep(s, GroupOf(w, id.chat), m.l.env, Next(id, GroupOf(w, id.chat), w.now, s, m.l)))
      || (p == s.proc && EffectOn(w, m, id) == Quiet && p.v.token < |s.sessions|
          && (p.fpc.Write? ==> !s.sessions[p.v.token].own))
  {
    hide MemberInv, Next, WorkStep, Apply;
    var (s, g) := (MemberOf(w, id), GroupOf(w, id.chat));
    InvOfMember(w, id);
    ApplySteps(w, m, id);
    if m.Step? && m.id == id {
      StepApplied(w, m, id);
      if m.l.Go? && s.proc.Finishing? {
        FinishFacts(id.user, g.epoch, w.now, s);
        StepOfSession(w, m, id, s.proc.v.token);
        SameToken(id, g, w.now, s, m.l.env);
        GoesOnWorking(id, g, w.now, s, m.l.env);
      } else {
        OthersDoNotWork(id, g, w.now, s, m.l);
        FinishFacts(id.user, g.epoch, w.now, s);
        StepOfSession(w, m, id, s.proc.v.token);
      }
    } else {
      ForeignProc(w, m, id);
      FinishFacts(id.user, g.epoch, w.now, s);
      StepOfSession(w, m, id, s.proc.v.token);
    }
  }

  lemma StepApplied(w: World, m: Move, id: MemberId)
    requires m.Step? && m.id == id
    ensures MemberOf(Apply(w, m), id) == Next(id, GroupOf(w, id.chat), w.now, MemberOf(w, id), m.l).0
    ensures EffectOn(w, m, id) == Next(id, GroupOf(w, id.chat), w.now, MemberOf(w, id), m.l).1
  {
    hide Next;
  }

  lemma GoesOnWorking(id: MemberId, g: Group, now: int, s: MemberState, env: Env)
    requires s.proc.Finishing? && FinishInv(s, s.proc.v, s.proc.fpc)
    requires var p := Next(id, g, now, s, Go(env)).0.proc;
      Working(p) && (p.fpc.Write? ==> s.proc.v.token < |s.sessions| && !s.sessions[s.proc.v.token].own)
    ensures WorkStep(s, g, env, Next(id, g, now, s, Go(env)))
  {
    hide WorkStep, FinishStep, FinishInv;
    OwnPrograms(s);
    FinishWorks(g, s, now, env);
  }

  lemma OwnPrograms(s: MemberState)
    requires s.proc.Finishing? && FinishInv(s, s.proc.v, s.proc.fpc)
    ensures s.proc.v.token < |s.sessions|
    ensures s.proc.fpc.SelfPlan? || s.proc.fpc.SelfDone? ==> s.sessions[s.proc.v.token].own
  {
  }

  lemma SameToken(id: MemberId, g: Group, now: int, s: MemberState, env: Env)
    requires s.proc.Finishing? && Next(id, g, now, s, Go(env)).0.proc.Finishing?
    ensures Next(id, g, now, s, Go(env)).0.proc.v == s.proc.v
  {
    hide FinishPlan, TakenOver, SelfBusy, SelfUnmuteDone;
  }

  /** Every program at its permission work once read the member, and has done since exactly
      what its plan had before what is left of it. */
  lemma {:induction false} Trace(w: World, ms: seq<Move>, id: MemberId, n: nat) returns (i: nat, all: seq<SessionOp>)
    requires Inv(w) && w.members == map[] && n <= |ms|
    requires var p := MemberOf(Before(w, ms, n), id).proc;
      Working(p) && (p.fpc.Write? ==> p.v.token < |SessionsOf(Before(w, ms, n), id)| && !SessionsOf(Before(w, ms, n), id)[p.v.token].own)
    ensures var p := MemberOf(Before(w, ms, n), id).proc; i < n && Traced(w, ms, id, i, n, p.v, p.fpc, all)
    decreases n
  {
    hide Inv, Apply, Next, EffectOn, Traced, FinishPlan, WorkStep, Working;
    NobodyWorks(w, ms, id);
    InvAlong(w, ms, n - 1);
    Along(w, ms, n - 1);
    var (u, m) := (Before(w, ms, n - 1), ms[n - 1]);
    WorkArises(u, m, id);
    var (p, p') := (MemberOf(u, id).proc, MemberOf(Before(w, ms, n), id).proc);
    AtWork(w, ms, id, n);
    if p' == p && EffectOn(u, m, id) == Quiet && p.v.token < |SessionsOf(u, id)|
       && (p.fpc.Write? ==> !SessionsOf(u, id)[p.v.token].own) {
      i, all := Trace(w, ms, id, n - 1);
      TraceStays(w, ms, id, i, n - 1, p.v, p.fpc, all);
    } else {
      StepApplied(u, m, id);
      StepFacts(MemberOf(u, id), GroupOf(u, id.chat), m.l.env, Next(id, GroupOf(u, id.chat), u.now, MemberOf(u, id), m.l));
      if p.fpc == Plan {
        i, all := n - 1, p'.fpc.ops;
        TraceStarts(w, ms, id, n - 1, p.v, all, p'.fpc.to);
      } else {
        i, all := Trace(w, ms, id, n - 1);
        if p.fpc.ops == [] {
          TraceEnds(w, ms, id, i, n - 1, p.v, p.fpc.to, all);
        } else {
          TraceGoes(w, ms, id, i, n - 1, p.v, p.fpc, p'.fpc, all);
        }
      }
    }
  }

  lemma NobodyWorks(w: World, ms: seq<Move>, id: MemberId)
    requires w.members == map[]
    ensures Before(w, ms, 0) == w && !Working(MemberOf(w, id).proc)
  {
  }

  lemma AtWork(w: World, ms: seq<Move>, id: MemberId, n: nat)
    requires n <= |ms| && Working(MemberOf(Before(w, ms, n), id).proc)
    ensures MemberOf(Before(w, ms, n), id).proc.Finishing? && SameWork(w, ms, id, n, MemberOf(Before(w, ms, n), id).proc.v)
    ensures MemberOf(Before(w, ms, n), id).proc.fpc.Perform? || MemberOf(Before(w, ms, n), id).proc.fpc.Write?
  {
  }

  /** A step of the work, spelled out. */
  lemma StepFacts(s: MemberState, g: Group, env: Env, x: Result)
    requires WorkStep(s, g, env, x)
    ensures s.proc.Finishing? && Working(x.0.proc) && x.0.proc.v == s.proc.v && s.proc.v.token < |s.sessions|
    ensures s.proc.fpc == Plan || s.proc.fpc.Perform?
    ensures s.proc.fpc == Plan ==>
      x.0.proc.fpc.Perform? && x.1 == Quiet
      && FinishPlan(s.proc.v, s.sessions[s.proc.v.token].failAction, Authorized(g), env) == Some((x.0.proc.fpc.ops, x.0.proc.fpc.to))
    ensures s.proc.fpc.Perform? ==> Working(s.proc)
    ensures s.proc.fpc.Perform? && s.proc.fpc.ops == [] ==> x.0.proc.fpc == FinishPc.Write(s.proc.fpc.to) && x.1 == Quiet
    ensures s.proc.fpc.Perform? && s.proc.fpc.ops != [] ==>
      && x.0.proc.fpc == Perform(s.proc.fpc.ops[1..], s.proc.fpc.to) && Noise(x.1) == Acks(s.proc.v.token, s.proc.fpc.ops[0])
      && (s.proc.fpc.ops[0] == OpConfirm ==> env.chatStatus != Kicked)
  {
    hide FinishPlan;
  }

  // ---------------------------------------------------------------- how a verification ends

  function SentAll(t: nat, calls: seq<Call>): seq<Effect> {
    seq(|calls|, x requires 0 <= x < |calls| => Sent(FromSession(t), calls[x], Accepted))
  }

  lemma {:induction false} OpsAppend(ops: seq<SessionOp>, op: SessionOp)
    ensures CallsOfOps(ops + [op]) == CallsOfOps(ops) + CallsOfOps([op])
  {
    if ops == [] {
      assert [] + [op] == [op];
    } else {
      OpsAppend(ops[1..], op);
      assert (ops + [op])[1..] == ops[1..] + [op];
    }
  }

  lemma {:induction false} AcksAreSent(t: nat, ops: seq<SessionOp>)
    ensures AllAcks(t, ops) == SentAll(t, CallsOfOps(ops))
  {
    if ops != [] {
      var n := |ops| - 1;
      AcksAreSent(t, ops[..n]);
      assert ops == ops[..n] + [ops[n]];
      OpsAppend(ops[..n], ops[n]);
      assert CallsOfOps([ops[n]]) == if ops[n] == OpMarkKick || ops[n] == OpConfirm then [] else [SessionCall(ops[n])];
    }
  }

  /** The program of a join's session is about to write status `to` with move n. */
  predicate Writes(w: World, ms: seq<Move>, id: MemberId, n: nat, v: Snapshot, to: SessionStatus)
    requires n <= |ms|
  {
    && MemberOf(Before(w, ms, n), id).proc == Finishing(v, FinishPc.Write(to))
    && v.token < |SessionsOf(Before(w, ms, n), id)| && !SessionsOf(Before(w, ms, n), id)[v.token].own
  }

  /** Before the program of a join's session writes a status, it has read the member once, and
      since then its calls, all acknowledged, are exactly those that what it read asks for,
      and they lead to that status; after an unban it has read that the member is not banned. */
  lemma EndsAsRead(now: int, ms: seq<Move>, id: MemberId, n: nat, v: Snapshot, to: SessionStatus) returns (i: nat, calls: seq<Call>)
    requires n <= |ms| && Writes(Empty(now), ms, id, n, v, to)
    ensures i < n && ReadAt(Empty(now), ms, id, i, n, v)
    ensures var u := Before(Empty(now), ms, i);
      EndsBy(v.status, v.kickStarted, SessionsOf(u, id)[v.token].failAction,
             Authorized(GroupOf(u, id.chat)) && ms[i].l.env.verificationEnabled, ms[i].l.env, to, calls)
    ensures CallsBetween(Empty(now), ms, id, i, n) == SentAll(v.token, calls)
    ensures UnbanMember in calls ==>
      exists j :: i < j < n && ConfirmedAt(Empty(now), ms, id, j, v)
                  && CallsBetween(Empty(now), ms, id, i, j) == CallsBetween(Empty(now), ms, id, i, n)
  {
    hide Inv, Apply, EffectOn, FinishPlan, EndsBy, ConfirmedAt, SameWork, CallsBetween, AllAcks, SentAll;
    var w := Empty(now);
    EmptyInv(now);
    var all;
    i, all := Trace(w, ms, id, n);
    var u := Before(w, ms, i);
    var (fail, on, env) := (SessionsOf(u, id)[v.token].failAction, Authorized(GroupOf(u, id.chat)), ms[i].l.env);
    calls := CallsOfOps(all);
    PlanEndsBy(v, fail, on, env);
    PlanConfirms(v, fail, on, env);
    assert all[..|all|] == all;
    AcksAreSent(v.token, all);
  }

  predicate Ended(st: SessionStatus) {
    st == Verified || st == Expired || st == Blocked || st == SessionStatus.Left
  }

  /** No session came to such an end. */
  predicate NoneEnded(s: MemberState, s': MemberState) {
    forall t :: 0 <= t < |s'.sessions| && Ended(s'.sessions[t].status) ==>
      t < |s.sessions| && s.sessions[t].status == s'.sessions[t].status
  }

  lemma PunishEndsNone(id: MemberId, g: Group, now: int, s: MemberState, env: Env)
    requires s.proc.Punishing?
    ensures NoneEnded(s, PunishStep(id, g, now, s, env).0)
  {
    hide PreflightStep, DeleteStep, StartStep, DoMainCall, KickStep, TailStep, SenderStep, DoComplete;
    if s.proc.run.k < |s.rows| && s.proc.run.pc == Complete {
      CommitEndsNone(g, s, s.proc.run, s.rows[s.proc.run.k]);
    } else {
      PunishKeepsSessions(id, g, now, s, env);
    }
  }

  lemma CommitEndsNone(g: Group, s: MemberState, run: Run, r: Row)
    requires run.k < |s.rows|
    ensures NoneEnded(s, DoComplete(g, s, run, r))
  {
  }

  lemma AnswerEndsNone(s: MemberState, now: int)
    requires s.proc.AnswerRead? || s.proc.AnswerBusy? || s.proc.AnswerWrite?
    ensures NoneEnded(s, AnswerStep(s, now))
  {
  }

  lemma FinishEnds(g: Group, s: MemberState, now: int, env: Env, t: nat)
    requires s.proc.Finishing? && t < |FinishStep(g, s, now, env).0.sessions|
    requires Ended(FinishStep(g, s, now, env).0.sessions[t].status)
    requires !(t < |s.sessions| && s.sessions[t].status == FinishStep(g, s, now, env).0.sessions[t].status)
    ensures t < |s.sessions| && s.proc == Finishing(s.proc.v, FinishPc.Write(FinishStep(g, s, now, env).0.sessions[t].status))
    ensures s.proc.v.token == t
  {
    hide FinishPlan, TakenOver, SelfBusy, SelfUnmuteDone;
  }

  lemma OthersEndNone(id: MemberId, g: Group, now: int, s: MemberState, l: Label)
    requires !(l.Go? && (s.proc.Punishing? || s.proc.Finishing?))
    requires !(l.Go? && (s.proc.AnswerRead? || s.proc.AnswerBusy? || s.proc.AnswerWrite?))
    ensures NoneEnded(s, Next(id, g, now, s, l).0)
  {
    hide PunishStep, AnswerStep, FinishStep, TakenOver, NewerPermission, ActiveSession;
  }

  lemma ForeignEndsNone(w: World, m: Move, id: MemberId)
    requires !(m.Step? && m.id == id)
    ensures NoneEnded(MemberOf(w, id), MemberOf(Apply(w, m), id))
  {
    hide Next, RevokeRows, Authorized;
  }

  /** A session comes to an end only by the write of its own program. */
  lemma EndArises(w: World, m: Move, id: MemberId, t: nat)
    requires t < |SessionsOf(Apply(w, m), id)| && Ended(SessionsOf(Apply(w, m), id)[t].status)
    requires !(t < |SessionsOf(w, id)| && SessionsOf(w, id)[t].status == SessionsOf(Apply(w, m), id)[t].status)
    ensures var p := MemberOf(w, id).proc;
      t < |SessionsOf(w, id)| && p.Finishing? && p.v.token == t && p.fpc == FinishPc.Write(SessionsOf(Apply(w, m), id)[t].status)
  {
    hide PunishStep, AnswerStep, FinishStep, NoneEnded, Apply;
    var (s, g) := (MemberOf(w, id), GroupOf(w, id.chat));
    NotEnded(w, m, id, t);
    if m.Step? && m.id == id {
      StepApplied(w, m, id);
      if m.l.Go? && s.proc.Punishing? {
        PunishEndsNone(id, g, w.now, s, m.l.env);
      } else if m.l.Go? && (s.proc.AnswerRead? || s.proc.AnswerBusy? || s.proc.AnswerWrite?) {
        AnswerEndsNone(s, w.now);
      } else if m.l.Go? && s.proc.Finishing? {
        FinishEnds(g, s, w.now, m.l.env, t);
      } else {
        OthersEndNone(id, g, w.now, s, m.l);
      }
    } else {
      ForeignEndsNone(w, m, id);
    }
  }

  lemma NotEnded(w: World, m: Move, id: MemberId, t: nat)
    requires t < |SessionsOf(Apply(w, m), id)| && Ended(SessionsOf(Apply(w, m), id)[t].status)
    requires !(t < |SessionsOf(w, id)| && SessionsOf(w, id)[t].status == SessionsOf(Apply(w, m), id)[t].status)
    ensures !NoneEnded(MemberOf(w, id), MemberOf(Apply(w, m), id))
  {
    hide Apply;
  }

  lemma {:induction false} EndIsWritten(w: World, ms: seq<Move>, id: MemberId, t: nat, n: nat) returns (k: nat, v: Snapshot)
    requires Inv(w) && w.members == map[] && n <= |ms| && t < |SessionsOf(Before(w, ms, n), id)|
    requires Ended(SessionsOf(Before(w, ms, n), id)[t].status) && !SessionsOf(Before(w, ms, n), id)[t].own
    ensures k < n && v.token == t && Writes(w, ms, id, k, v, SessionsOf(Before(w, ms, n), id)[t].status)
  {
    hide Inv, Apply, Ended;
    assert Before(w, ms, 0) == w;
    InvAlong(w, ms, n - 1);
    Along(w, ms, n - 1);
    var (u, m) := (Before(w, ms, n - 1), ms[n - 1]);
    ApplySteps(u, m, id);
    if t < |SessionsOf(u, id)| {
      StepOfSession(u, m, id, t);
    }
    if t < |SessionsOf(u, id)| && SessionsOf(u, id)[t].status == SessionsOf(Before(w, ms, n), id)[t].status {
      k, v := EndIsWritten(w, ms, id, t, n - 1);
    } else {
      EndArises(u, m, id, t);
      k, v := n - 1, MemberOf(u, id).proc.v;
    }
  }

  // ---------------------------------------------------------------- in plain words

  /** Some call of session t from move i on and before move n was this one, acknowledged. */
  ghost predicate Heard(w: World, ms: seq<Move>, id: MemberId, i: nat, n: nat, t: nat, c: Call) {
    exists j :: i <= j < n && j < |ms| && EffectOn(Before(w, ms, j), ms[j], id) == Sent(FromSession(t), c, Accepted)
  }

  lemma {:induction false} CallsGrow(w: World, ms: seq<Move>, id: MemberId, i: nat, a: nat, b: nat)
    requires i <= a <= b <= |ms|
    ensures |CallsBetween(w, ms, id, i, a)| <= |CallsBetween(w, ms, id, i, b)|
    decreases b
  {
    hide CallsBetween, EffectOn;
    if a < b {
      CallsGrow(w, ms, id, i, a, b - 1);
      OneCallMore(w, ms, id, i, b - 1);
    }
  }

  /** The x-th call was made by some move, after exactly x others. */
  lemma {:induction false} CallIsMade(w: World, ms: seq<Move>, id: MemberId, i: nat, n: nat, x: nat) returns (j: nat)
    requires i <= n <= |ms| && x < |CallsBetween(w, ms, id, i, n)|
    ensures i <= j < n && EffectOn(Before(w, ms, j), ms[j], id) == CallsBetween(w, ms, id, i, n)[x]
    ensures |CallsBetween(w, ms, id, i, j)| == x
    decreases n
  {
    hide CallsBetween, EffectOn, Noise;
    if i == n {
      NoneBetween(w, ms, id, i);
      assert false;
    } else {
      OneCallMore(w, ms, id, i, n - 1);
      NoiseIsOne(EffectOn(Before(w, ms, n - 1), ms[n - 1], id));
      if x < |CallsBetween(w, ms, id, i, n - 1)| {
        j := CallIsMade(w, ms, id, i, n - 1, x);
      } else {
        j := n - 1;
      }
    }
  }

  lemma NoneBetween(w: World, ms: seq<Move>, id: MemberId, i: nat)
    requires i <= |ms|
    ensures CallsBetween(w, ms, id, i, i) == []
  {
    assert ms[i..i] == [];
  }

  lemma NoiseIsOne(e: Effect)
    ensures |Noise(e)| <= 1 && (Noise(e) != [] ==> Noise(e)[0] == e)
  {
  }

  /** A member who joined is verified only by a program that had an accepted restore of the
      member, unless it had read the member as creator or administrator. */
  lemma VerifiedWasRestored(now: int, ms: seq<Move>, id: MemberId, t: nat) returns (i: nat, n: nat, v: Snapshot)
    requires var ss := SessionsOf(Exec(Empty(now), ms), id); t < |ss| && ss[t].status == Verified && !ss[t].own
    ensures i < n < |ms| && v.token == t && v.status == Completing
    ensures ReadAt(Empty(now), ms, id, i, n, v) && Writes(Empty(now), ms, id, n, v, Verified)
    ensures ms[i].l.env.chatStatus == Creator || ms[i].l.env.chatStatus == Administrator
            || Heard(Empty(now), ms, id, i, n, t, Restore)
  {
    hide Inv, Apply, EffectOn, CallsBetween, ReadAt, Exec;
    EmptyInv(now);
    assert ms[..|ms|] == ms;
    n, v := EndIsWritten(Empty(now), ms, id, t, |ms|);
    var calls;
    i, calls := EndsAsRead(now, ms, id, n, v, Verified);
    ReadIsAnswered(Empty(now), ms, id, i, n, v);
    if calls != [] {
      var j := CallIsMade(Empty(now), ms, id, i, n, 0);
    }
  }

  lemma ReadIsAnswered(w: World, ms: seq<Move>, id: MemberId, i: nat, n: nat, v: Snapshot)
    requires i < n <= |ms| && ReadAt(w, ms, id, i, n, v)
    ensures ms[i].Step? && ms[i].l.Go? && v.token < |SessionsOf(Before(w, ms, i), id)|
  {
  }

  /** A member who joined is blocked only with an accepted ban. */
  lemma BlockedWasBanned(now: int, ms: seq<Move>, id: MemberId, t: nat) returns (i: nat, n: nat, v: Snapshot)
    requires var ss := SessionsOf(Exec(Empty(now), ms), id); t < |ss| && ss[t].status == Blocked && !ss[t].own
    ensures i < n < |ms| && v.token == t && v.status == Completing
    ensures ReadAt(Empty(now), ms, id, i, n, v) && Writes(Empty(now), ms, id, n, v, Blocked)
    ensures Heard(Empty(now), ms, id, i, n, t, BanMember) && ms[i].l.env.blacklisted
  {
    hide Inv, Apply, EffectOn, CallsBetween, ReadAt, Exec;
    EmptyInv(now);
    assert ms[..|ms|] == ms;
    n, v := EndIsWritten(Empty(now), ms, id, t, |ms|);
    var calls;
    i, calls := EndsAsRead(now, ms, id, n, v, Blocked);
    ReadIsAnswered(Empty(now), ms, id, i, n, v);
    var j := CallIsMade(Empty(now), ms, id, i, n, 0);
  }

  /** The member was read as present and not protected. */
  predicate FairGame(env: Env) {
    !env.protected && (env.chatStatus == Creator || env.chatStatus == Administrator || env.chatStatus == Member
                       || env.chatStatus == Restricted(true))
  }

  /** The session of a present, unprotected member ends as expired only with an accepted ban, if
      it is to be banned, and with an accepted ban, then an accepted unban, then a read that the
      member is not banned, if it is to be kicked. */
  lemma ExpiredWasRemoved(now: int, ms: seq<Move>, id: MemberId, t: nat) returns (i: nat, n: nat, v: Snapshot)
    requires var ss := SessionsOf(Exec(Empty(now), ms), id); t < |ss| && ss[t].status == Expired && !ss[t].own
    ensures i < n < |ms| && v.token == t && v.status == Expiring
    ensures ReadAt(Empty(now), ms, id, i, n, v) && Writes(Empty(now), ms, id, n, v, Expired)
    ensures FairGame(ms[i].l.env) ==>
      var fail := SessionsOf(Before(Empty(now), ms, i), id)[t].failAction;
      && (fail == FailBan ==> Heard(Empty(now), ms, id, i, n, t, BanMember))
      && (fail == FailKick ==> exists a, b, j :: KickedOut(Empty(now), ms, id, i, n, v, a, b, j))
  {
    hide Inv, Apply, EffectOn, CallsBetween, ReadAt, Exec, ConfirmedAt;
    EmptyInv(now);
    assert ms[..|ms|] == ms;
    n, v := EndIsWritten(Empty(now), ms, id, t, |ms|);
    var calls;
    i, calls := EndsAsRead(now, ms, id, n, v, Expired);
    ReadIsAnswered(Empty(now), ms, id, i, n, v);
    var fail := SessionsOf(Before(Empty(now), ms, i), id)[t].failAction;
    if FairGame(ms[i].l.env) && fail != FailMute {
      var a := CallIsMade(Empty(now), ms, id, i, n, 0);
      if fail == FailKick {
        KickIsOrdered(Empty(now), ms, id, i, n, v, a);
      }
    }
  }

  /** Ban, unban and the confirming read, one after the other. */
  predicate KickedOut(w: World, ms: seq<Move>, id: MemberId, i: nat, n: nat, v: Snapshot, a: nat, b: nat, j: nat) {
    i <= a < b < j < n && n <= |ms|
    && EffectOn(Before(w, ms, a), ms[a], id) == Sent(FromSession(v.token), BanMember, Accepted)
    && EffectOn(Before(w, ms, b), ms[b], id) == Sent(FromSession(v.token), UnbanMember, Accepted)
    && ConfirmedAt(w, ms, id, j, v)
  }

  lemma KickIsOrdered(w: World, ms: seq<Move>, id: MemberId, i: nat, n: nat, v: Snapshot, a: nat)
    requires i <= a < n <= |ms| && CallsBetween(w, ms, id, i, n) == SentAll(v.token, [BanMember, UnbanMember])
    requires EffectOn(Before(w, ms, a), ms[a], id) == Sent(FromSession(v.token), BanMember, Accepted)
    requires |CallsBetween(w, ms, id, i, a)| == 0
    requires exists j :: i < j < n && ConfirmedAt(w, ms, id, j, v) && CallsBetween(w, ms, id, i, j) == CallsBetween(w, ms, id, i, n)
    ensures exists b, j :: KickedOut(w, ms, id, i, n, v, a, b, j)
  {
    hide EffectOn, CallsBetween, ConfirmedAt, Apply;
    var j :| i < j < n && ConfirmedAt(w, ms, id, j, v) && CallsBetween(w, ms, id, i, j) == CallsBetween(w, ms, id, i, n);
    var b := CallIsMade(w, ms, id, i, j, 1);
    if b <= a {
      CallsGrow(w, ms, id, i, b, a);
    }
    assert KickedOut(w, ms, id, i, n, v, a, b, j);
  }

  /** A program that gives a join's session up, while the member is read as restricted, has an
      accepted restore of the member. */
  lemma CancelledWasRestored(now: int, ms: seq<Move>, id: MemberId, n: nat, v: Snapshot) returns (i: nat)
    requires n <= |ms| && Writes(Empty(now), ms, id, n, v, Cancelled)
    ensures i < n && ReadAt(Empty(now), ms, id, i, n, v)
    ensures ms[i].l.env.chatStatus.Restricted? ==> Heard(Empty(now), ms, id, i, n, v.token, Restore)
  {
    hide Inv, Apply, EffectOn, CallsBetween, ReadAt;
    var calls;
    i, calls := EndsAsRead(now, ms, id, n, v, Cancelled);
    ReadIsAnswered(Empty(now), ms, id, i, n, v);
    if calls != [] {
      var j := CallIsMade(Empty(now), ms, id, i, n, 0);
    }
  }
}
