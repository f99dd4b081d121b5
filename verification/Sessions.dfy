/** Verification sessions, over whole runs. */
module Sessions {
  import opened Domain
  import opened Tables
  import opened Machine
  import opened Invariant
  import opened Preservation
  import opened Evolution
  import opened Effects
  import opened World
  import opened Runs

  // ---------------------------------------------------------------- status changes

  /** How often the status of session t changes along a run. */
  function Changes(w: World, ms: seq<Move>, id: MemberId, t: nat): nat
    decreases |ms|
  {
    if ms == [] then 0
    else
      var w1 := Apply(w, ms[0]);
      (if t < |SessionsOf(w, id)| && t < |SessionsOf(w1, id)| && SessionsOf(w1, id)[t].status != SessionsOf(w, id)[t].status
       then 1 else 0) + Changes(w1, ms[1..], id, t)
  }

  function RankOf(w: World, id: MemberId, t: nat): nat {
    if t < |SessionsOf(w, id)| then Rank(SessionsOf(w, id)[t].status) else 0
  }

  /** Each status change raises the rank, so a session changes status at most four times
      in any run. */
  lemma {:induction false} ChangesBounded(w: World, ms: seq<Move>, id: MemberId, t: nat)
    requires Inv(w)
    ensures RankOf(w, id, t) + Changes(w, ms, id, t) <= RankOf(Exec(w, ms), id, t) <= 4
    decreases |ms|
  {
    hide Inv, Apply;
    if ms != [] {
      ApplyKeeps(w, ms[0]);
      ApplySteps(w, ms[0], id);
      if t < |SessionsOf(w, id)| {
        StepOfSession(w, ms[0], id, t);
      }
      ChangesBounded(Apply(w, ms[0]), ms[1..], id, t);
    }
  }

  // ---------------------------------------------------------------- correct answers

  /** The move records the right answer of the session's owner, in time and after fewer
      than three wrong ones, on a session that is still pending. */
  predicate CorrectAnswer(w: World, m: Move, id: MemberId, t: nat) {
    var s := MemberOf(w, id);
    && m.Step? && m.id == id && m.l.Go? && s.proc.AnswerWrite? && s.proc.token == t && t < |s.sessions|
    && s.proc.owner && s.proc.submitted == s.sessions[t].answer
    && s.sessions[t].status == VPending && w.now <= s.sessions[t].expiresAt && s.sessions[t].attempts < 3
    && (s.proc.event.Some? ==> s.proc.event.value !in s.sessions[t].answers)
  }

  /** No session became answered. */
  predicate NoneAnswered(s: MemberState, s': MemberState) {
    forall t :: 0 <= t < |s'.sessions| && s'.sessions[t].answered ==> t < |s.sessions| && s.sessions[t].answered
  }

  lemma PunishAnswersNone(id: MemberId, g: Group, now: int, s: MemberState, env: Env)
    requires s.proc.Punishing?
    ensures NoneAnswered(s, PunishStep(id, g, now, s, env).0)
  {
    if s.proc.run.k < |s.rows| && s.proc.run.pc == Complete {
      CompleteAnswersNone(g, s, s.proc.run, s.rows[s.proc.run.k]);
    } else {
      PunishKeepsSessions(id, g, now, s, env);
    }
  }

  lemma CompleteAnswersNone(g: Group, s: MemberState, run: Run, r: Row)
    requires run.k < |s.rows|
    ensures NoneAnswered(s, DoComplete(g, s, run, r))
  {
  }

  lemma PunishKeepsSessions(id: MemberId, g: Group, now: int, s: MemberState, env: Env)
    requires s.proc.Punishing? && (s.proc.run.k < |s.rows| ==> s.proc.run.pc != Complete)
    ensures PunishStep(id, g, now, s, env).0.sessions == s.sessions
  {
  }

  lemma AnswerAnswersOne(s: MemberState, now: int, t: nat)
    requires s.proc.AnswerRead? || s.proc.AnswerBusy? || s.proc.AnswerWrite?
    requires t < |AnswerStep(s, now).sessions| && AnswerStep(s, now).sessions[t].answered
    requires !(t < |s.sessions| && s.sessions[t].answered)
    ensures s.proc.AnswerWrite? && s.proc.token == t && t < |s.sessions|
    ensures s.proc.owner && s.proc.submitted == s.sessions[t].answer
    ensures s.sessions[t].status == VPending && now <= s.sessions[t].expiresAt && s.sessions[t].attempts < 3
    ensures s.proc.event.Some? ==> s.proc.event.value !in s.sessions[t].answers
  {
  }

  lemma OthersAnswerNone(id: MemberId, g: Group, now: int, s: MemberState, l: Label)
    requires !(l.Go? && s.proc.Punishing?)
    requires !(l.Go? && (s.proc.AnswerRead? || s.proc.AnswerBusy? || s.proc.AnswerWrite?))
    ensures NoneAnswered(s, Next(id, g, now, s, l).0)
  {
    hide PunishStep, AnswerStep, TakenOver, NewerPermission, FinishPlan, ActiveSession;
  }

  lemma AnsweredArises(w: World, m: Move, id: MemberId, t: nat)
    requires t < |SessionsOf(Apply(w, m), id)| && SessionsOf(Apply(w, m), id)[t].answered
    requires !(t < |SessionsOf(w, id)| && SessionsOf(w, id)[t].answered)
    ensures CorrectAnswer(w, m, id, t)
  {
    hide PunishStep, AnswerStep;
    var s := MemberOf(w, id);
    var g := GroupOf(w, id.chat);
    if m.Step? && m.id == id && m.l.Go? && s.proc.Punishing? {
      PunishAnswersNone(id, g, w.now, s, m.l.env);
    } else if m.Step? && m.id == id && m.l.Go? && (s.proc.AnswerRead? || s.proc.AnswerBusy? || s.proc.AnswerWrite?) {
      AnswerAnswersOne(s, w.now, t);
    } else if m.Step? && m.id == id {
      OthersAnswerNone(id, g, w.now, s, m.l);
    }
  }

  lemma {:induction false} AnsweredMeansAnswer(w: World, ms: seq<Move>, id: MemberId, t: nat, n: nat) returns (i: nat)
    requires w.members == map[] && n <= |ms|
    requires t < |SessionsOf(Before(w, ms, n), id)| && SessionsOf(Before(w, ms, n), id)[t].answered
    ensures i < n && CorrectAnswer(Before(w, ms, i), ms[i], id, t)
  {
    hide Apply, CorrectAnswer;
    assert Before(w, ms, 0) == w;
    Along(w, ms, n - 1);
    var u := Before(w, ms, n - 1);
    if t < |SessionsOf(u, id)| && SessionsOf(u, id)[t].answered {
      i := AnsweredMeansAnswer(w, ms, id, t, n - 1);
    } else {
      AnsweredArises(u, ms[n - 1], id, t);
      i := n - 1;
    }
  }

  /** A session is verified only after the correct, timely answer of its owner. */
  lemma VerifiedWasAnswered(now: int, ms: seq<Move>, id: MemberId, t: nat)
    requires t < |SessionsOf(Exec(Empty(now), ms), id)|
    requires SessionsOf(Exec(Empty(now), ms), id)[t].status == Verified
    ensures exists i :: 0 <= i < |ms| && CorrectAnswer(Before(Empty(now), ms, i), ms[i], id, t)
  {
    hide Apply, CorrectAnswer;
    EmptyInv(now);
    ExecKeeps(Empty(now), ms);
    SessionFacts(Exec(Empty(now), ms), id, t);
    assert ms[..|ms|] == ms;
    var i := AnsweredMeansAnswer(Empty(now), ms, id, t, |ms|);
  }

  lemma SessionFacts(w: World, id: MemberId, t: nat)
    requires Inv(w) && t < |SessionsOf(w, id)|
    ensures SessionInv(w.now, SessionsOf(w, id)[t])
    ensures forall u :: 0 <= u < |SessionsOf(w, id)| && u != t && Active(SessionsOf(w, id)[t]) ==> !Active(SessionsOf(w, id)[u])
    ensures SessionsOf(w, id)[t].own && SessionsOf(w, id)[t].status == Verified ==> SelfUnmuteDone(RowsOf(w, id), t)
  {
    InvOfMember(w, id);
  }

  /** The only way to `verified` leads through `completing`. */
  lemma VerifiedFromCompleting(w: World, m: Move, id: MemberId, t: nat)
    requires Reachable(w) && t < |SessionsOf(w, id)| && SessionsOf(w, id)[t].status != Verified
    requires t < |SessionsOf(Apply(w, m), id)| && SessionsOf(Apply(w, m), id)[t].status == Verified
    ensures SessionsOf(w, id)[t].status == Completing
  {
    hide Apply, Inv;
    ReachableInv(w);
    ApplySteps(w, m, id);
    StepOfSession(w, m, id, t);
  }

  /** The owner's wrong answer, under a new event, to a pending session, in time and after
      fewer than three wrong ones. */
  predicate WrongAnswer(w: World, m: Move, id: MemberId, t: nat) {
    var s := MemberOf(w, id);
    && m.Step? && m.id == id && m.l.Go? && s.proc.AnswerWrite? && s.proc.token == t && t < |s.sessions|
    && s.proc.owner && s.proc.submitted != s.sessions[t].answer
    && s.sessions[t].status == VPending && w.now <= s.sessions[t].expiresAt && s.sessions[t].attempts < 3
    && (s.proc.event.Some? ==> s.proc.event.value !in s.sessions[t].answers)
  }

  /** The complete account of an answer: a correct one, and nothing else, completes the
      session; a wrong one, and nothing else, adds one attempt, and the third sets the deadline
      to now; any other answer changes nothing. The program goes on to finish the verification
      exactly after a correct answer or one that the owner repeats; nobody else's rows or
      sessions are touched. */
  lemma AnswerIsJudged(w: World, env: Env, id: MemberId, t: nat)
    requires MemberOf(w, id).proc.AnswerWrite? && MemberOf(w, id).proc.token == t < |SessionsOf(w, id)|
    ensures var (m, w') := (Step(id, Go(env)), Apply(w, Step(id, Go(env))));
      && RowsOf(w', id) == RowsOf(w, id) && |SessionsOf(w', id)| == |SessionsOf(w, id)|
      && (forall u :: 0 <= u < |SessionsOf(w, id)| && u != t ==> SessionsOf(w', id)[u] == SessionsOf(w, id)[u])
    ensures var (m, w') := (Step(id, Go(env)), Apply(w, Step(id, Go(env))));
      var (v, v') := (SessionsOf(w, id)[t], SessionsOf(w', id)[t]);
      && (v.status == VPending && v'.status == Completing && v'.answered <==> CorrectAnswer(w, m, id, t))
      && (v'.attempts == v.attempts + 1 <==> WrongAnswer(w, m, id, t))
      && (WrongAnswer(w, m, id, t) ==> v'.status == VPending && v'.expiresAt == if v.attempts == 2 then w.now else v.expiresAt)
      && (!CorrectAnswer(w, m, id, t) && !WrongAnswer(w, m, id, t) ==> v' == v)
    ensures var (m, p, p') := (Step(id, Go(env)), MemberOf(w, id).proc, MemberOf(Apply(w, Step(id, Go(env))), id).proc);
      && (p' == Idle || (p'.Finishing? && p'.v.token == t && p'.fpc == Enter))
      && (p'.Finishing? <==> CorrectAnswer(w, m, id, t) || RepeatsRight(SessionsOf(w, id)[t], p.owner, p.event))
  {
    hide Tables.Answer;
    var p := MemberOf(w, id).proc;
    AnswerJudges(SessionsOf(w, id)[t], p.owner, p.submitted, p.event, w.now);
  }

  /** The attempts are the distinct wrong answers, and there are never more than three. */
  lemma AttemptsAreWrongAnswers(w: World, id: MemberId, t: nat)
    requires Reachable(w) && t < |SessionsOf(w, id)|
    ensures var v := SessionsOf(w, id)[t]; v.attempts == |WrongEvents(v)| + v.anonymousWrong <= 3
  {
    ReachableInv(w);
    SessionFacts(w, id, t);
  }

  /** A recorded answer keeps its verdict: the owner who sends the event again, whenever
      and with whatever answer, gets the first verdict and changes nothing. */
  lemma ReplayIsStable(w: World, ms: seq<Move>, id: MemberId, t: nat, event: int, submitted: int, at: int)
    requires Reachable(w) && t < |SessionsOf(w, id)| && event in SessionsOf(w, id)[t].answers
    ensures t < |SessionsOf(Exec(w, ms), id)|
    ensures var v := SessionsOf(Exec(w, ms), id)[t];
      Answer(v, true, submitted, Some(event), at)
        == (v, if SessionsOf(w, id)[t].answers[event] then Correct else Wrong)
  {
    ReachableInv(w);
    SessionsEvolve(w, ms, id, t);
  }

  /** At most one session of a member is open. */
  lemma OneOpenSession(w: World, id: MemberId, t: nat, u: nat)
    requires Reachable(w) && t < u < |SessionsOf(w, id)|
    ensures !(Active(SessionsOf(w, id)[t]) && Active(SessionsOf(w, id)[u]))
  {
    ReachableInv(w);
    SessionFacts(w, id, t);
  }

  /** A self-unmute session is verified only once its own unmute was carried out. */
  lemma SelfVerifiedMeansUnmuted(w: World, id: MemberId, t: nat)
    requires Reachable(w) && t < |SessionsOf(w, id)|
    requires SessionsOf(w, id)[t].own && SessionsOf(w, id)[t].status == Verified
    ensures exists i :: 0 <= i < |RowsOf(w, id)| && RowsOf(w, id)[i].key == SelfUnmute(t)
                        && RowsOf(w, id)[i].decision.action == Unmute && RowsOf(w, id)[i].acted && RowsOf(w, id)[i].sent
  {
    ReachableInv(w);
    SessionFacts(w, id, t);
    var i :| 0 <= i < |RowsOf(w, id)| && RowsOf(w, id)[i].key == SelfUnmute(t)
             && RowsOf(w, id)[i].status == Done && RowsOf(w, id)[i].acted;
    RowFacts(w, id, i);
  }
}
