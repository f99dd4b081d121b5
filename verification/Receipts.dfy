/** What a punishment records as done was acknowledged by Telegram, call by call. */
module Receipts {
  import opened Domain
  import opened Tables
  import opened Machine
  import opened Invariant
  import opened Preservation
  import opened Evolution
  import opened Effects
  import opened World
  import opened Runs

  /** The call that carries an action out. A kick needs two, and a delete of the message as
      part of the decision has happened before. */
  function Carrier(r: Row): Option<Call> {
    match r.decision.action
    case Mute => Some(Restrict)
    case Ban => Some(BanMember)
    case Unmute => Some(Restore)
    case Unban => Some(UnbanMember)
    case Warn => Some(Notice)
    case Delete => if !r.decision.delete && r.message > 0 then Some(DeleteMessage) else None
    case _ => None
  }

  /** The call whose acknowledgement a stage of the program relies on. */
  function Receipt(pc: PunishPc, r: Row): Option<Call> {
    match pc
    case MarkPreDeleted | MarkBanDeleted | SenderMark => Some(DeleteMessage)
    case SenderAct => Some(Notice)
    case KickMark => Some(BanMember)
    case KickConfirm => Some(UnbanMember)
    case Complete => Carrier(r)
    case _ => None
  }

  /** The program at work on row k is at a stage that relies on call c. */
  predicate Relies(s: MemberState, k: nat, c: Call) {
    s.proc.Punishing? && s.proc.run.k == k < |s.rows| && Receipt(s.proc.run.pc, s.rows[k]) == Some(c)
  }

  // ---------------------------------------------------------------- how such a stage is reached

  /** The step reached it by that call. */
  predicate Receives(r: Result, k: nat, c: Call) {
    Relies(r.0, k, c) ==> r.1 == Sent(FromPunishment(k), c, Accepted)
  }

  lemma PreflightReceives(id: MemberId, g: Group, now: int, s: MemberState, run: Run, r: Row, env: Env, k: nat, c: Call)
    requires s.proc == Punishing(run) && run.k < |s.rows| && r == s.rows[run.k] && Receipt(run.pc, r).None?
    ensures Receives((PreflightStep(id, g, now, s, run, r, env), Quiet), k, c)
  {
    hide InsertWorkflow, StepSkipped, NewerManual;
  }

  lemma DeleteReceives(now: int, s: MemberState, run: Run, r: Row, env: Env, k: nat, c: Call)
    requires s.proc == Punishing(run) && run.k < |s.rows| && r == s.rows[run.k]
    ensures Receives(DeleteStep(now, s, run, r, env), k, c)
  {
    hide StepDeleted;
  }

  lemma StartReceives(g: Group, now: int, s: MemberState, run: Run, r: Row, k: nat, c: Call)
    requires s.proc == Punishing(run) && run.k < |s.rows| && r == s.rows[run.k] && Receipt(run.pc, r).None?
    ensures Receives((StartStep(g, now, s, run, r), Quiet), k, c)
  {
    hide StartPermission, FailPunishment;
  }

  lemma CallReceives(now: int, s: MemberState, run: Run, r: Row, env: Env, k: nat, c: Call)
    requires s.proc == Punishing(run) && run.k < |s.rows| && r == s.rows[run.k]
    ensures Receives(DoMainCall(now, s, run, r, env), k, c)
  {
    hide UntilDate, Noted, MainCallOf, Carrier;
    CarrierIsCalled(r);
    NotedSame(r, env.outcome, UntilDate(now, run.seconds));
    SameReceipt(Complete, r, Noted(r, env.outcome, UntilDate(now, run.seconds)));
  }

  /** The machine's choice of the call is the right one. */
  lemma CarrierIsCalled(r: Row)
    ensures MainCallOf(r) == Carrier(r)
  {
  }

  lemma NotedSame(r: Row, o: Outcome, until: Option<int>)
    ensures Noted(r, o, until).decision == r.decision && Noted(r, o, until).message == r.message
  {
  }

  lemma SameReceipt(pc: PunishPc, r: Row, r': Row)
    requires r'.decision == r.decision && r'.message == r.message
    ensures Receipt(pc, r') == Receipt(pc, r)
  {
  }

  lemma KickReceives(s: MemberState, run: Run, r: Row, env: Env, k: nat, c: Call)
    requires s.proc == Punishing(run) && run.k < |s.rows| && r == s.rows[run.k]
    requires run.pc == KickConfirm ==> r.decision.action == Kick
    requires run.pc == KickRead || run.pc == KickBan || run.pc == KickMark || run.pc == KickUnban || run.pc == KickConfirm
    ensures Receives(KickStep(s, run, r, env), k, c)
  {
  }

  lemma CommitReceives(g: Group, s: MemberState, run: Run, r: Row, k: nat, c: Call)
    requires s.proc == Punishing(run) && run.k < |s.rows| && r == s.rows[run.k]
    ensures Receives((DoComplete(g, s, run, r), Quiet), k, c)
  {
    hide CompleteTakeover, StepActed;
  }

  lemma TailReceives(s: MemberState, run: Run, r: Row, env: Env, k: nat, c: Call)
    requires s.proc == Punishing(run) && run.k < |s.rows| && r == s.rows[run.k]
    requires run.pc == BanDelete || run.pc == MarkBanDeleted || run.pc == Notify || run.pc == MarkDone || run.pc == Reject
    ensures Receives(TailStep(s, run, r, env), k, c)
  {
    hide StepDeleted, StepDone, RejectPunishment, NewerManual;
  }

  lemma SenderReceives(s: MemberState, run: Run, r: Row, env: Env, k: nat, c: Call)
    requires s.proc == Punishing(run) && run.k < |s.rows| && r == s.rows[run.k]
    requires run.pc == SenderDelete || run.pc == SenderMark || run.pc == SenderNotice || run.pc == SenderAct
    ensures Receives(SenderStep(s, run, r, env), k, c)
  {
    hide StepDeleted, StepActed;
  }

  lemma PunishReceives(id: MemberId, g: Group, now: int, s: MemberState, env: Env, k: nat, c: Call)
    requires MemberInv(id.user, g.epoch, now, s) && s.proc.Punishing?
    ensures Receives(PunishStep(id, g, now, s, env), k, c)
  {
    hide MemberInv, RowInv, PunishInv, Receives, PreflightStep, DeleteStep, StartStep, DoMainCall, KickStep, DoComplete, TailStep, SenderStep;
    Facts(id.user, g.epoch, now, s);
    KickOnlyKicks(id.user, g.epoch, now, s);
    var run := s.proc.run;
    var r := s.rows[run.k];
    match run.pc {
      case AddWorkflow | ReadRow | Preflight | CheckNewer | MarkSkipped => PreflightReceives(id, g, now, s, run, r, env, k, c);
      case PreDelete | MarkPreDeleted => DeleteReceives(now, s, run, r, env, k, c);
      case StartCall | CheckDeadline | MarkFailed => StartReceives(g, now, s, run, r, k, c);
      case MainCall => CallReceives(now, s, run, r, env, k, c);
      case KickRead | KickBan | KickMark | KickUnban | KickConfirm => KickReceives(s, run, r, env, k, c);
      case Complete => CommitReceives(g, s, run, r, k, c);
      case BanDelete | MarkBanDeleted | Notify | MarkDone | Reject => TailReceives(s, run, r, env, k, c);
      case SenderDelete | SenderMark | SenderNotice | SenderAct => SenderReceives(s, run, r, env, k, c);
    }
  }

  lemma KickOnlyKicks(user: int, epoch: nat, now: int, s: MemberState)
    requires MemberInv(user, epoch, now, s) && s.proc.Punishing?
    ensures s.proc.run.k < |s.rows|
    ensures s.proc.run.pc == KickConfirm ==> s.rows[s.proc.run.k].decision.action == Kick
  {
    hide MemberInv, RowInv;
    Facts(user, epoch, now, s);
    KickedIsKick(user, epoch, now, s.rows[s.proc.run.k]);
  }

  lemma KickedIsKick(user: int, epoch: nat, now: int, r: Row)
    requires RowInv(user, epoch, now, r)
    ensures r.kickBanned ==> r.decision.action == Kick
  {
  }

  /** Programs other than a punishment are at no such stage, and do not reach one. */
  lemma OthersRely(id: MemberId, g: Group, now: int, s: MemberState, l: Label, k: nat, c: Call)
    requires !(l.Go? && s.proc.Punishing?) && Relies(Next(id, g, now, s, l).0, k, c)
    ensures Relies(s, k, c)
  {
    hide PunishStep;
  }

  /** A stage that relies on a call is reached by the acknowledgement of that call. */
  lemma ReceiptArises(w: World, m: Move, id: MemberId, k: nat, c: Call)
    requires Inv(w) && Relies(MemberOf(Apply(w, m), id), k, c) && !Relies(MemberOf(w, id), k, c)
    ensures EffectOn(w, m, id) == Sent(FromPunishment(k), c, Accepted)
  {
    hide Next, MemberInv, Inv, Relies;
    var (s, g) := (MemberOf(w, id), GroupOf(w, id.chat));
    if m.Step? && m.id == id {
      if m.l.Go? && s.proc.Punishing? {
        InvOfMember(w, id);
        NextReceives(id, g, w.now, s, m.l.env, k, c);
      } else {
        OthersRely(id, g, w.now, s, m.l, k, c);
      }
    } else {
      ForeignRely(w, m, id, k, c);
    }
  }

  lemma NextReceives(id: MemberId, g: Group, now: int, s: MemberState, env: Env, k: nat, c: Call)
    requires MemberInv(id.user, g.epoch, now, s) && s.proc.Punishing?
    ensures Receives(Next(id, g, now, s, Go(env)), k, c)
  {
    hide MemberInv, PunishStep, Receives;
    PunishReceives(id, g, now, s, env, k, c);
  }

  lemma ForeignRely(w: World, m: Move, id: MemberId, k: nat, c: Call)
    requires Inv(w) && !(m.Step? && m.id == id) && Relies(MemberOf(Apply(w, m), id), k, c)
    ensures Relies(MemberOf(w, id), k, c)
  {
    hide Apply, Inv, Receipt;
    ForeignProc(w, m, id);
    ApplySteps(w, m, id);
    StepEvolves(w, m, id, k);
    var pc := MemberOf(w, id).proc.run.pc;
    SameReceipt(pc, RowsOf(w, id)[k], RowsOf(Apply(w, m), id)[k]);
  }

  lemma ForeignProc(w: World, m: Move, id: MemberId)
    requires !(m.Step? && m.id == id)
    ensures MemberOf(Apply(w, m), id).proc == MemberOf(w, id).proc
    ensures |RowsOf(Apply(w, m), id)| == |RowsOf(w, id)| && |SessionsOf(Apply(w, m), id)| == |SessionsOf(w, id)|
  {
    hide Next, RevokeRow, Authorized;
  }

  // ---------------------------------------------------------------- over runs

  /** Some move of the run, before the n-th, is this call of row k, acknowledged. */
  ghost predicate Acknowledged(w: World, ms: seq<Move>, id: MemberId, k: nat, c: Call, n: nat) {
    exists i :: 0 <= i < n && i < |ms| && EffectOn(Before(w, ms, i), ms[i], id) == Sent(FromPunishment(k), c, Accepted)
  }

  lemma {:induction false} ReceiptIsReal(w: World, ms: seq<Move>, id: MemberId, k: nat, c: Call, n: nat)
    requires Inv(w) && w.members == map[] && n <= |ms| && Relies(MemberOf(Before(w, ms, n), id), k, c)
    ensures Acknowledged(w, ms, id, k, c, n)
  {
    hide Inv, Apply, EffectOn, Relies;
    NobodyRelies(w, ms, id, k, c);
    InvAlong(w, ms, n - 1);
    Along(w, ms, n - 1);
    var u := Before(w, ms, n - 1);
    if Relies(MemberOf(u, id), k, c) {
      ReceiptIsReal(w, ms, id, k, c, n - 1);
    } else {
      ReceiptArises(u, ms[n - 1], id, k, c);
    }
  }

  lemma NobodyRelies(w: World, ms: seq<Move>, id: MemberId, k: nat, c: Call)
    requires w.members == map[]
    ensures Before(w, ms, 0) == w && !Relies(MemberOf(w, id), k, c)
  {
  }

  // ---------------------------------------------------------------- marks

  /** Row k was marked by the step of a program whose stage relies on the call. */
  predicate Marks(s: MemberState, s': MemberState, k: nat) {
    |s'.rows| == |s.rows| && (k < |s.rows| ==> MarksRow(s, s.rows[k], s'.rows[k], k))
  }

  predicate MarksRow(s: MemberState, r: Row, r': Row, k: nat) {
    && (!r.deleted && r'.deleted ==> Relies(s, k, DeleteMessage))
    && (!r.kickBanned && r'.kickBanned ==> Relies(s, k, BanMember))
    && (!r.acted && r'.acted ==>
          s.proc.Punishing? && s.proc.run.k == k && (s.proc.run.pc == Complete || Relies(s, k, Notice)))
  }

  predicate Plain(r: Row, r': Row) {
    r'.deleted == r.deleted && r'.kickBanned == r.kickBanned && r'.acted == r.acted
  }

  /** A step that writes its own row, if any. */
  lemma OneMarked(s: MemberState, s': MemberState, k: nat, r': Row)
    requires s.proc.Punishing? && s.proc.run.k < |s.rows| && s'.rows == s.rows[s.proc.run.k := r']
    requires MarksRow(s, s.rows[s.proc.run.k], r', s.proc.run.k)
    ensures Marks(s, s', k)
  {
    hide Relies;
  }

  lemma WorkflowIsPlain(g: Group, r: Row)
    ensures Plain(r, InsertWorkflow(g, r))
  {
  }

  lemma SkipIsPlain(r: Row)
    ensures Plain(r, StepSkipped(r))
  {
    assert StepSkipped(r) == if r.status != Pending then r else r.(status := Skipped);
  }

  lemma FailIsPlain(r: Row)
    ensures Plain(r, FailPunishment(r))
  {
    assert FailPunishment(r) == if r.status != Pending then r else r.(status := Failed);
  }

  lemma DoneIsPlain(r: Row)
    ensures Plain(r, StepDone(r))
  {
    assert StepDone(r) == if r.status != Pending then r else r.(status := PunishmentStatus.Done);
  }

  lemma RejectIsPlain(r: Row)
    ensures Plain(r, RejectPunishment(r))
  {
  }

  lemma NoteIsPlain(r: Row, o: Outcome, until: Option<int>)
    ensures Plain(r, Noted(r, o, until))
  {
  }

  lemma StartIsPlain(g: Group, r: Row, until: Option<int>)
    ensures StartPermission(g, r, until).Some? ==> Plain(r, StartPermission(g, r, until).value)
  {
  }

  lemma PlainMarks(s: MemberState, r: Row, r': Row, k: nat)
    requires Plain(r, r')
    ensures MarksRow(s, r, r', k)
  {
    hide Relies;
  }

  lemma DeletedMarks(s: MemberState, k: nat)
    requires k < |s.rows| && Relies(s, k, DeleteMessage)
    ensures MarksRow(s, s.rows[k], StepDeleted(s.rows[k]), k)
  {
    hide Relies;
  }

  lemma WarnedMarks(s: MemberState, k: nat)
    requires k < |s.rows| && Relies(s, k, Notice)
    ensures MarksRow(s, s.rows[k], StepActed(s.rows[k]), k)
  {
    hide Receipt;
    assert StepActed(s.rows[k]).deleted == s.rows[k].deleted && StepActed(s.rows[k]).kickBanned == s.rows[k].kickBanned;
  }

  lemma BannedMarks(s: MemberState, k: nat)
    requires k < |s.rows| && Relies(s, k, BanMember)
    ensures MarksRow(s, s.rows[k], MarkKickBanned(s.rows[k]), k)
  {
    hide Relies;
  }

  lemma ReadsWriteNothing(user: int, s: MemberState, run: Run, r: Row, now: int)
    ensures EnterAction(s, run, r, now).rows == s.rows && ReadSnapshot(user, s, run, r).rows == s.rows
    ensures Approach(s, run, r, now).rows == s.rows && AfterSenderDelete(s, run, r).rows == s.rows
  {
  }

  lemma PreflightMarks(id: MemberId, g: Group, now: int, s: MemberState, run: Run, r: Row, env: Env, k: nat)
    requires s.proc == Punishing(run) && run.k < |s.rows| && r == s.rows[run.k]
    ensures Marks(s, PreflightStep(id, g, now, s, run, r, env), k)
  {
    hide Marks, MarksRow, Plain, InsertWorkflow, StepSkipped, EnterAction, ReadSnapshot, NewerManual;
    WorkflowIsPlain(g, r);
    SkipIsPlain(r);
    ReadsWriteNothing(id.user, s, run, r, now);
    var r' := if run.pc == AddWorkflow then InsertWorkflow(g, r) else if run.pc == MarkSkipped then StepSkipped(r) else r;
    assert Plain(r, r) by { Itself(r); }
    PlainMarks(s, r, r', run.k);
    assert s.rows[run.k := r] == s.rows;
    OneMarked(s, PreflightStep(id, g, now, s, run, r, env), k, r');
  }

  lemma Itself(r: Row)
    ensures Plain(r, r)
  {
  }

  lemma DeleteMarks(now: int, s: MemberState, run: Run, r: Row, env: Env, k: nat)
    requires s.proc == Punishing(run) && run.k < |s.rows| && r == s.rows[run.k]
    requires run.pc == PreDelete || run.pc == MarkPreDeleted
    ensures Marks(s, DeleteStep(now, s, run, r, env).0, k)
  {
    hide Marks, MarksRow, Plain, StepDeleted, Approach;
    ReadsWriteNothing(0, Put(s, run.k, StepDeleted(r)), run, r, now);
    assert s.rows[run.k := r] == s.rows;
    Itself(r);
    PlainMarks(s, r, r, run.k);
    if run.pc == MarkPreDeleted {
      DeletedMarks(s, run.k);
    }
    OneMarked(s, DeleteStep(now, s, run, r, env).0, k, if run.pc == PreDelete then r else StepDeleted(r));
  }

  lemma StartMarks(g: Group, now: int, s: MemberState, run: Run, r: Row, k: nat)
    requires s.proc == Punishing(run) && run.k < |s.rows| && r == s.rows[run.k]
    ensures Marks(s, StartStep(g, now, s, run, r), k)
  {
    hide Marks, MarksRow, Plain, StartPermission, FailPunishment, Until;
    StartIsPlain(g, r, Until(r));
    FailIsPlain(r);
    Itself(r);
    var started := StartPermission(g, r, Until(r));
    var r' := if run.pc == StartCall && started.Some? then started.value
              else if run.pc == MarkFailed then FailPunishment(r) else r;
    PlainMarks(s, r, r', run.k);
    assert s.rows[run.k := r] == s.rows;
    OneMarked(s, StartStep(g, now, s, run, r), k, r');
  }

  lemma CallMarks(now: int, s: MemberState, run: Run, r: Row, env: Env, k: nat)
    requires s.proc == Punishing(run) && run.k < |s.rows| && r == s.rows[run.k]
    ensures Marks(s, DoMainCall(now, s, run, r, env).0, k)
  {
    hide Marks, MarksRow, Plain, Noted, MainCallOf, UntilDate;
    var noted := Noted(r, env.outcome, UntilDate(now, run.seconds));
    NoteIsPlain(r, env.outcome, UntilDate(now, run.seconds));
    Itself(r);
    var c := MainCallOf(r);
    var r' := if c.Some? && PermissionCall(c.value) then noted else r;
    PlainMarks(s, r, r', run.k);
    assert s.rows[run.k := r] == s.rows;
    OneMarked(s, DoMainCall(now, s, run, r, env).0, k, r');
  }

  lemma KickMarks(s: MemberState, run: Run, r: Row, env: Env, k: nat)
    requires s.proc == Punishing(run) && run.k < |s.rows| && r == s.rows[run.k]
    ensures Marks(s, KickStep(s, run, r, env).0, k)
  {
    hide Marks, MarksRow, Plain, Noted, MarkKickBanned;
    NoteIsPlain(r, env.outcome, None);
    Itself(r);
    ConfirmIsPlain(r);
    var r' := if run.pc == KickBan then Noted(r, env.outcome, None)
              else if run.pc == KickMark then MarkKickBanned(r)
              else if run.pc == KickConfirm && env.chatStatus != Kicked then r.(unbanned := true) else r;
    if run.pc == KickMark {
      BannedMarks(s, run.k);
    } else {
      PlainMarks(s, r, r', run.k);
    }
    assert s.rows[run.k := r] == s.rows;
    OneMarked(s, KickStep(s, run, r, env).0, k, r');
  }

  lemma ConfirmIsPlain(r: Row)
    ensures Plain(r, r.(unbanned := true))
  {
  }

  lemma TailMarks(s: MemberState, run: Run, r: Row, env: Env, k: nat)
    requires s.proc == Punishing(run) && run.k < |s.rows| && r == s.rows[run.k]
    ensures Marks(s, TailStep(s, run, r, env).0, k)
  {
    hide Marks, MarksRow, Plain, StepDeleted, StepDone, RejectPunishment, NewerManual;
    DoneIsPlain(r);
    RejectIsPlain(r);
    Itself(r);
    var r' := if run.pc == MarkBanDeleted then StepDeleted(r) else if run.pc == MarkDone then StepDone(r)
              else if run.pc == Reject then RejectPunishment(r) else r;
    if run.pc == MarkBanDeleted {
      DeletedMarks(s, run.k);
    } else {
      PlainMarks(s, r, r', run.k);
    }
    assert s.rows[run.k := r] == s.rows;
    OneMarked(s, TailStep(s, run, r, env).0, k, r');
  }

  lemma SenderMarks(s: MemberState, run: Run, r: Row, env: Env, k: nat)
    requires s.proc == Punishing(run) && run.k < |s.rows| && r == s.rows[run.k]
    ensures Marks(s, SenderStep(s, run, r, env).0, k)
  {
    hide Marks, MarksRow, Plain, StepDeleted, StepActed, AfterSenderDelete;
    ReadsWriteNothing(0, Put(s, run.k, StepDeleted(r)), run, r, 0);
    Itself(r);
    PlainMarks(s, r, r, run.k);
    var r' := if run.pc == SenderMark then StepDeleted(r) else if run.pc == SenderAct then StepActed(r) else r;
    if run.pc == SenderMark {
      DeletedMarks(s, run.k);
    } else if run.pc == SenderAct {
      WarnedMarks(s, run.k);
    }
    assert s.rows[run.k := r] == s.rows;
    OneMarked(s, SenderStep(s, run, r, env).0, k, r');
  }

  lemma CommitMarks(g: Group, s: MemberState, run: Run, r: Row, k: nat)
    requires s.proc == Punishing(run) && run.pc == Complete && run.k < |s.rows| && r == s.rows[run.k]
    ensures Marks(s, DoComplete(g, s, run, r), k)
  {
    hide CompleteTakeover, StepActed, Relies;
    if k < |s.rows| {
      TakeoverMarks(g, s.rows, s.sessions, run.k, k);
      ActedOnly(r);
    }
    TakeoverLength(g, s.rows, s.sessions, run.k);
  }

  lemma ActedOnly(r: Row)
    ensures StepActed(r).deleted == r.deleted && StepActed(r).kickBanned == r.kickBanned
  {
  }

  lemma TakeoverLength(g: Group, rows: seq<Row>, sessions: seq<Session>, n: nat)
    requires n < |rows|
    ensures var t := CompleteTakeover(g, rows, sessions, n); t.Some? ==> |t.value.0| == |rows|
  {
  }

  lemma TakeoverMarks(g: Group, rows: seq<Row>, sessions: seq<Session>, n: nat, k: nat)
    requires n < |rows| && k < |rows|
    ensures var t := CompleteTakeover(g, rows, sessions, n);
      t.Some? ==> |t.value.0| == |rows| && t.value.0[k].deleted == rows[k].deleted
                  && t.value.0[k].kickBanned == rows[k].kickBanned && (k != n ==> t.value.0[k].acted == rows[k].acted)
  {
    hide StepActed, StepSkipped, AuthorityHolds, CancelAllBut;
    ActedOnly(rows[n]);
    SkipIsPlain(rows[k]);
    SkipIsPlain(StepActed(rows[n]));
  }

  lemma PunishMarks(id: MemberId, g: Group, now: int, s: MemberState, env: Env, k: nat)
    requires s.proc.Punishing?
    ensures Marks(s, Next(id, g, now, s, Go(env)).0, k)
  {
    hide Marks, PreflightStep, DeleteStep, StartStep, DoMainCall, KickStep, DoComplete, TailStep, SenderStep;
    var run := s.proc.run;
    if run.k >= |s.rows| {
      NothingMarked(s, Drop(s), k);
    } else {
      var r := s.rows[run.k];
      match run.pc {
        case AddWorkflow | ReadRow | Preflight | CheckNewer | MarkSkipped => PreflightMarks(id, g, now, s, run, r, env, k);
        case PreDelete | MarkPreDeleted => DeleteMarks(now, s, run, r, env, k);
        case StartCall | CheckDeadline | MarkFailed => StartMarks(g, now, s, run, r, k);
        case MainCall => CallMarks(now, s, run, r, env, k);
        case KickRead | KickBan | KickMark | KickUnban | KickConfirm => KickMarks(s, run, r, env, k);
        case Complete => CommitMarks(g, s, run, r, k);
        case BanDelete | MarkBanDeleted | Notify | MarkDone | Reject => TailMarks(s, run, r, env, k);
        case SenderDelete | SenderMark | SenderNotice | SenderAct => SenderMarks(s, run, r, env, k);
      }
    }
  }

  lemma NothingMarked(s: MemberState, s': MemberState, k: nat)
    requires s'.rows == s.rows
    ensures Marks(s, s', k)
  {
  }

  /** Outside a punishment's own program a row is touched only where a release is recorded. */
  lemma OthersKeepRow(id: MemberId, g: Group, now: int, s: MemberState, l: Label, k: nat)
    requires !(l.Go? && s.proc.Punishing?) && k < |s.rows|
    ensures var rows' := Next(id, g, now, s, l).0.rows;
      k < |rows'| && (rows'[k] == s.rows[k]
                      || (s.proc.ReleasingRow? && s.proc.row == k
                          && (rows'[k] == PostponeRelease(s.rows[k], now) || rows'[k] == FinishRelease(s.rows[k]))))
  {
    hide PunishStep, FinishStep, ReleaseStep, AnswerStep, JoinStep, SelfStep, CancelExternal, FinishRelease, PostponeRelease;
    if l.Go? {
      if s.proc.Finishing? {
        FinishKeepsRows(g, s, now, l.env);
      } else if s.proc.ReleasingRow? {
        ReleaseKeepsRow(s, now, l.env, k);
      } else {
        JoinersKeepRows(g, s, now, l.env);
      }
    }
  }

  lemma ReleaseKeepsRow(s: MemberState, now: int, env: Env, k: nat)
    requires s.proc.ReleasingRow? && k < |s.rows|
    ensures var rows' := ReleaseStep(s, now, env).0.rows;
      k < |rows'| && (rows'[k] == s.rows[k]
                      || (s.proc.ReleasingRow? && s.proc.row == k
                          && (rows'[k] == PostponeRelease(s.rows[k], now) || rows'[k] == FinishRelease(s.rows[k]))))
  {
    hide NewerPermission, CancelUpTo, FinishRelease, PostponeRelease;
  }

  lemma JoinersKeepRows(g: Group, s: MemberState, now: int, env: Env)
    ensures s.proc.JoinBusy? || s.proc.JoinRead? || s.proc.JoinInsert? || s.proc.JoinRestrict? ==>
      JoinStep(s, now, env).0.rows == s.rows
    ensures s.proc.AnswerRead? || s.proc.AnswerBusy? || s.proc.AnswerWrite? ==> AnswerStep(s, now).rows == s.rows
    ensures s.proc.SelfStart? || s.proc.SelfInsert? ==> SelfStep(g, s, now, env).rows == s.rows
  {
    hide TakenOver, ActiveSession, Answer, CreateSelfSession, CreateSession;
  }

  lemma OthersMarkNone(id: MemberId, g: Group, now: int, s: MemberState, l: Label, k: nat)
    requires !(l.Go? && s.proc.Punishing?) && k < |s.rows|
    ensures k < |Next(id, g, now, s, l).0.rows| && Plain(s.rows[k], Next(id, g, now, s, l).0.rows[k])
  {
    hide Next;
    OthersKeepRow(id, g, now, s, l, k);
  }

  lemma FinishKeepsRows(g: Group, s: MemberState, now: int, env: Env)
    requires s.proc.Finishing?
    ensures FinishStep(g, s, now, env).0.rows == s.rows
  {
    hide FinishPlan, SelfBusy, TakenOver, SelfUnmuteDone;
  }

  lemma ForeignIsPlain(w: World, m: Move, id: MemberId, k: nat)
    requires !(m.Step? && m.id == id) && k < |RowsOf(w, id)|
    ensures k < |RowsOf(Apply(w, m), id)| && Plain(RowsOf(w, id)[k], RowsOf(Apply(w, m), id)[k])
  {
    hide Next, RevokeRow, ReleaseSessions, Authorized;
    RevokeIsPlain(RowsOf(w, id)[k], w.now);
  }

  lemma RevokeIsPlain(r: Row, now: int)
    ensures Plain(r, r) && Plain(r, RevokeRow(r, now))
  {
    hide Plain;
    Itself(r);
    CutOffIsPlain(r, now);
  }

  lemma CutOffIsPlain(r: Row, now: int)
    ensures Plain(r, r.(status := Skipped))
    ensures Plain(r, r.(status := Skipped, releaseNeeded := true, releaseAt := Some(now), revoked := true))
  {
  }

  lemma MarksArise(w: World, m: Move, id: MemberId, k: nat)
    requires Inv(w) && k < |RowsOf(w, id)|
    ensures k < |RowsOf(Apply(w, m), id)|
    ensures MarksRow(MemberOf(w, id), RowsOf(w, id)[k], RowsOf(Apply(w, m), id)[k], k)
  {
    hide Next, Inv, MarksRow, Plain, Relies;
    var (s, g) := (MemberOf(w, id), GroupOf(w, id.chat));
    if m.Step? && m.id == id {
      if m.l.Go? && s.proc.Punishing? {
        PunishMarks(id, g, w.now, s, m.l.env, k);
      } else {
        OthersMarkNone(id, g, w.now, s, m.l, k);
        PlainMarks(s, RowsOf(w, id)[k], RowsOf(Apply(w, m), id)[k], k);
      }
    } else {
      ForeignIsPlain(w, m, id, k);
      PlainMarks(s, RowsOf(w, id)[k], RowsOf(Apply(w, m), id)[k], k);
    }
  }

  // ---------------------------------------------------------------- new rows

  /** A new row carries no history. */
  lemma NewRows(w: World, m: Move, id: MemberId, k: nat)
    requires Inv(w) && |RowsOf(w, id)| <= k < |RowsOf(Apply(w, m), id)|
    ensures RowsOf(Apply(w, m), id)[k].status == Pending && !RowsOf(Apply(w, m), id)[k].unbanned
    ensures !RowsOf(Apply(w, m), id)[k].acted && !RowsOf(Apply(w, m), id)[k].sent
    ensures !RowsOf(Apply(w, m), id)[k].deleted && !RowsOf(Apply(w, m), id)[k].kickBanned
  {
    hide Next;
    InvOfMember(w, id);
    var s := MemberOf(w, id);
    if m.Step? && m.id == id {
      var g := GroupOf(w, id.chat);
      if m.l.Go? && s.proc.Preparing? {
        PreparedRow(id, g, w.now, s, m.l.env, k);
      } else if m.l.Go? && s.proc.Punishing? {
        PunishRows(id, g, w.now, s, m.l.env);
      } else {
        OtherRows(id, g, w.now, s, m.l);
      }
    }
  }

  lemma PreparedRow(id: MemberId, g: Group, now: int, s: MemberState, env: Env, k: nat)
    requires MemberInv(id.user, g.epoch, now, s) && s.proc.Preparing?
    requires |s.rows| <= k < |Next(id, g, now, s, Go(env)).0.rows|
    ensures var r := Next(id, g, now, s, Go(env)).0.rows[k];
      r.status == Pending && !r.unbanned && !r.acted && !r.sent && !r.deleted && !r.kickBanned
  {
    var plan := s.proc.plan;
    assert plan == NewRow(plan.key, plan.message, plan.decision, plan.source, plan.createdAt);
  }

  lemma PunishRows(id: MemberId, g: Group, now: int, s: MemberState, env: Env)
    requires s.proc.Punishing?
    ensures |Next(id, g, now, s, Go(env)).0.rows| == |s.rows|
  {
    hide PunishStep;
    SameRows(id, g, now, s, env);
  }

  lemma OtherRows(id: MemberId, g: Group, now: int, s: MemberState, l: Label)
    requires !(l.Go? && (s.proc.Preparing? || s.proc.Punishing?))
    ensures |Next(id, g, now, s, l).0.rows| == |s.rows|
  {
    hide PunishStep, Prepare;
  }

  lemma SameRows(id: MemberId, g: Group, now: int, s: MemberState, env: Env)
    requires s.proc.Punishing?
    ensures |PunishStep(id, g, now, s, env).0.rows| == |s.rows|
  {
    hide StepDeleted, StepActed, StepDone, StepSkipped, RejectPunishment, FailPunishment, MarkKickBanned, InsertWorkflow,
      StartPermission, Noted, CompleteTakeover, EnterAction, ReadSnapshot, Approach, AfterSenderDelete, NewerManual;
    var run := s.proc.run;
    if run.k < |s.rows| {
      var r := s.rows[run.k];
      ReadsWriteNothing(id.user, s, run, r, now);
      ReadsWriteNothing(id.user, Put(s, run.k, StepDeleted(r)), run.(mayHaveActed := true), r, now);
      ReadsWriteNothing(id.user, Put(s, run.k, StepDeleted(r)), run, r, now);
      TakeoverLength(g, s.rows, s.sessions, run.k);
    }
  }

  // ---------------------------------------------------------------- what the marks mean

  /** A deleted message, and a ban that a kick has stored, were acknowledged. */
  lemma {:induction false} MarkMeansCall(w: World, ms: seq<Move>, id: MemberId, k: nat, n: nat)
    requires Inv(w) && w.members == map[] && n <= |ms| && k < |RowsOf(Before(w, ms, n), id)|
    ensures RowsOf(Before(w, ms, n), id)[k].deleted ==> Acknowledged(w, ms, id, k, DeleteMessage, n)
    ensures RowsOf(Before(w, ms, n), id)[k].kickBanned ==> Acknowledged(w, ms, id, k, BanMember, n)
  {
    hide Inv, Apply, EffectOn, Relies, Acknowledged;
    NobodyRelies(w, ms, id, k, BanMember);
    InvAlong(w, ms, n - 1);
    Along(w, ms, n - 1);
    var (u, m) := (Before(w, ms, n - 1), ms[n - 1]);
    if k < |RowsOf(u, id)| {
      MarksArise(u, m, id, k);
      MarkMeansCall(w, ms, id, k, n - 1);
      Later(w, ms, id, k, n - 1, DeleteMessage);
      Later(w, ms, id, k, n - 1, BanMember);
    } else {
      NewRows(u, m, id, k);
    }
  }

  /** An acknowledged call, or one that the program relies on, lies before the next move too. */
  lemma Later(w: World, ms: seq<Move>, id: MemberId, k: nat, n: nat, c: Call)
    requires Inv(w) && w.members == map[] && n <= |ms|
    ensures Acknowledged(w, ms, id, k, c, n) || Relies(MemberOf(Before(w, ms, n), id), k, c) ==>
      Acknowledged(w, ms, id, k, c, n + 1)
  {
    hide Inv, EffectOn, Relies;
    if Relies(MemberOf(Before(w, ms, n), id), k, c) {
      ReceiptIsReal(w, ms, id, k, c, n);
    }
  }

  /** A row becomes acted by a program that relies on the call that carries the action out. */
  lemma ActedRelies(w: World, m: Move, id: MemberId, k: nat, c: Call)
    requires Inv(w) && k < |RowsOf(w, id)| && k < |RowsOf(Apply(w, m), id)|
    requires !RowsOf(w, id)[k].acted && RowsOf(Apply(w, m), id)[k].acted && Carrier(RowsOf(w, id)[k]) == Some(c)
    ensures Relies(MemberOf(w, id), k, c)
  {
    hide Inv, Apply;
    MarksArise(w, m, id, k);
    InvOfMember(w, id);
    WarnsOnly(id.user, GroupOf(w, id.chat).epoch, w.now, MemberOf(w, id));
  }

  lemma WarnsOnly(user: int, epoch: nat, now: int, s: MemberState)
    requires MemberInv(user, epoch, now, s) && s.proc.Punishing?
    ensures s.proc.run.k < |s.rows|
    ensures s.proc.run.pc == SenderAct ==> s.rows[s.proc.run.k].decision.action == Warn
  {
    hide MemberInv, RowInv;
    Facts(user, epoch, now, s);
  }

  lemma {:induction false} ActedMeansCall(w: World, ms: seq<Move>, id: MemberId, k: nat, n: nat, c: Call)
    requires Inv(w) && w.members == map[] && n <= |ms| && k < |RowsOf(Before(w, ms, n), id)|
    requires RowsOf(Before(w, ms, n), id)[k].acted && Carrier(RowsOf(Before(w, ms, n), id)[k]) == Some(c)
    ensures Acknowledged(w, ms, id, k, c, n)
  {
    hide Inv, Apply, EffectOn, Relies, Acknowledged, Carrier;
    NobodyRelies(w, ms, id, k, c);
    InvAlong(w, ms, n - 1);
    Along(w, ms, n - 1);
    var (u, m) := (Before(w, ms, n - 1), ms[n - 1]);
    if k >= |RowsOf(u, id)| {
      NewRows(u, m, id, k);
      assert false;
    } else {
      ApplySteps(u, m, id);
      StepEvolves(u, m, id, k);
      SameReceipt(Complete, RowsOf(u, id)[k], RowsOf(Apply(u, m), id)[k]);
      if RowsOf(u, id)[k].acted {
        ActedMeansCall(w, ms, id, k, n - 1, c);
      } else {
        ActedRelies(u, m, id, k, c);
      }
      Later(w, ms, id, k, n - 1, c);
    }
  }
}
