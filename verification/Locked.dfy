/** What a program under the member lock works on: the database and Telegram. Between
    two of its statements anything else may happen, and the process may die. */
module Locked {
  import opened Domain
  import opened Tables
  import opened Machine
  import opened Invariant
  import opened Preservation
  import opened Evolution
  import opened World
  import opened Runs

  /** What the others do before the next statement, and the answers it will get. */
  datatype Moment = Moment(others: seq<Move>, env: Env)

  /** Moves of anybody but the holder of this member's lock. */
  predicate Foreign(ms: seq<Move>, id: MemberId) {
    forall i :: 0 <= i < |ms| ==> !(ms[i].Step? && ms[i].id == id)
  }

  function With(w: World, id: MemberId, p: Proc): World
    requires id in w.members
  {
    w.(members := w.members[id := w.members[id].(proc := p)])
  }

  /** A writer without a lock treats the member's tables alike, wherever its program stands. */
  lemma ForeignEach(w: World, id: MemberId, p: Proc, chat: int, f: MemberState -> MemberState)
    requires id in w.members && forall s: MemberState, q: Proc :: f(s.(proc := q)) == f(s).(proc := q)
    ensures id in EachOf(w, chat, f)
    ensures EachOf(With(w, id, p), chat, f)
         == EachOf(w, chat, f)[id := EachOf(w, chat, f)[id].(proc := p)]
    ensures EachOf(w, chat, f)[id].proc == w.members[id].proc
  {
    var s := w.members[id];
    assert s.(proc := s.proc) == s;
    var (l, r) := (EachOf(With(w, id, p), chat, f), EachOf(w, chat, f)[id := EachOf(w, chat, f)[id].(proc := p)]);
    assert forall j :: j in l <==> j in r;
    assert forall j :: j in l ==> l[j] == r[j];
  }

  /** What the others do depends neither on how far the program is nor changes it. */
  lemma ForeignMove(w: World, id: MemberId, p: Proc, m: Move)
    requires id in w.members && !(m.Step? && m.id == id)
    ensures id in Apply(w, m).members && Apply(With(w, id, p), m) == With(Apply(w, m), id, p)
    ensures Apply(w, m).members[id].proc == w.members[id].proc
  {
    hide Next, RevokeRows, ReleaseSessions, ExpireDue, EachOf, Authorized;
    match m {
      case Authorize(chat, _, _) => ForeignEach(w, id, p, chat, (s: MemberState) => Revoke(s, w.now));
      case Configure(chat, _) => ForeignEach(w, id, p, chat, (s: MemberState) => s.(sessions := ReleaseSessions(s.sessions)));
      case ExpireSessions => ForeignExpire(w, id, p);
      case Step(j, l) =>
        assert Apply(With(w, id, p), m).members == With(Apply(w, m), id, p).members;
      case _ =>
    }
  }

  lemma ForeignExpire(w: World, id: MemberId, p: Proc)
    requires id in w.members
    ensures id in ApplyExpire(w).members && ApplyExpire(With(w, id, p)) == With(ApplyExpire(w), id, p)
    ensures ApplyExpire(w).members[id].proc == w.members[id].proc
  {
    hide ExpireDue;
    assert ApplyExpire(With(w, id, p)).members == With(ApplyExpire(w), id, p).members;
  }

  lemma {:induction false} ForeignMoves(w: World, id: MemberId, p: Proc, ms: seq<Move>)
    requires id in w.members && Foreign(ms, id)
    ensures id in Exec(w, ms).members && Exec(With(w, id, p), ms) == With(Exec(w, ms), id, p)
    decreases |ms|
  {
    hide Apply, With;
    if ms != [] {
      ForeignMove(w, id, p, ms[0]);
      ForeignMoves(Apply(w, ms[0]), id, p, ms[1..]);
    }
  }

  /** The Telegram calls made for a member along a run. */
  function CallsOf(w: World, ms: seq<Move>, id: MemberId): seq<Effect>
    decreases |ms|
  {
    if ms == [] then []
    else (if EffectOn(w, ms[0], id) == Quiet then [] else [EffectOn(w, ms[0], id)]) + CallsOf(Apply(w, ms[0]), ms[1..], id)
  }

  lemma {:induction false} CallsAppend(w: World, ms: seq<Move>, m: Move, id: MemberId)
    ensures CallsOf(w, ms + [m], id)
         == CallsOf(w, ms, id) + if EffectOn(Exec(w, ms), m, id) == Quiet then [] else [EffectOn(Exec(w, ms), m, id)]
    decreases |ms|
  {
    hide Apply, EffectOn;
    if ms == [] {
      assert [m][1..] == [] && ms + [m] == [m];
    } else {
      assert (ms + [m])[1..] == ms[1..] + [m];
      CallsAppend(Apply(w, ms[0]), ms[1..], m, id);
    }
  }

  lemma {:induction false} ForeignCalls(w: World, ms: seq<Move>, ns: seq<Move>, id: MemberId)
    requires Foreign(ns, id)
    ensures CallsOf(w, ms + ns, id) == CallsOf(w, ms, id)
    decreases |ns|
  {
    hide Apply, Next;
    if ns == [] {
      assert ms + ns == ms;
    } else {
      var n := |ns| - 1;
      assert ms + ns == (ms + ns[..n]) + [ns[n]];
      ForeignCalls(w, ms, ns[..n], id);
      CallsAppend(w, ms + ns[..n], ns[n], id);
    }
  }

  /** The moves of a run in which these moments come one after another, and the program
      answers each with its next statement or call. */
  function Played(ms: seq<Moment>, id: MemberId): seq<Move> {
    if ms == [] then []
    else var n := |ms| - 1; Played(ms[..n], id) + ms[n].others + [Step(id, Go(ms[n].env))]
  }

  lemma NoMoves(w: World)
    ensures Exec(w, []) == w
  {
  }

  lemma TablesGrow(w: World, ms: seq<Move>, id: MemberId)
    requires Inv(w)
    ensures var (rows, rows') := (RowsOf(w, id), RowsOf(Exec(w, ms), id));
      |rows| <= |rows'| && forall i :: 0 <= i < |rows| ==> Evolves(rows[i], rows'[i])
    ensures var (ss, ss') := (SessionsOf(w, id), SessionsOf(Exec(w, ms), id));
      |ss| <= |ss'| && forall t :: 0 <= t < |ss| ==> SessionEvolves(ss[t], ss'[t])
  {
    hide Inv, Evolves, SessionEvolves, Exec;
    var (rows, ss) := (RowsOf(w, id), SessionsOf(w, id));
    forall i | 0 <= i < |rows| ensures i < |RowsOf(Exec(w, ms), id)| && Evolves(rows[i], RowsOf(Exec(w, ms), id)[i]) {
      RowsEvolve(w, ms, id, i);
    }
    forall t | 0 <= t < |ss| ensures t < |SessionsOf(Exec(w, ms), id)| && SessionEvolves(ss[t], SessionsOf(Exec(w, ms), id)[t]) {
      SessionsEvolve(w, ms, id, t);
    }
    if |rows| > 0 {
      RowsEvolve(w, ms, id, |rows| - 1);
    }
    if |ss| > 0 {
      SessionsEvolve(w, ms, id, |ss| - 1);
    }
  }

  // ---------------------------------------------------------------- the calls of a program

  /** An initial part of the planned calls, of which only the last may have been answered
      otherwise than planned. */
  predicate Follows(made: seq<Effect>, plan: seq<Effect>) {
    |made| <= |plan|
    && forall i :: 0 <= i < |made| ==>
         made[i] == plan[i]
         || (i == |made| - 1 && made[i].Sent? && plan[i].Sent?
             && made[i].origin == plan[i].origin && made[i].call == plan[i].call)
  }

  /** What was called since: the whole plan, or as far as it got. */
  predicate Carried(before: seq<Effect>, after: seq<Effect>, plan: seq<Effect>, whole: bool) {
    before <= after && if whole then after == before + plan else Follows(after[|before|..], plan)
  }

  lemma NoneCarried(before: seq<Effect>, plan: seq<Effect>)
    ensures Carried(before, before, plan, false) && Carried(before, before, [], true)
  {
  }

  lemma OneCarried(before: seq<Effect>, origin: Origin, c: Call, o: Outcome)
    ensures Carried(before, before + [Sent(origin, c, o)], [Sent(origin, c, Accepted)], false)
    ensures o == Accepted ==> Carried(before, before + [Sent(origin, c, o)], [Sent(origin, c, Accepted)], true)
  {
  }

  lemma WholeCarried(a: seq<Effect>, b: seq<Effect>, plan: seq<Effect>)
    requires Carried(a, b, plan, true)
    ensures Carried(a, b, plan, false)
  {
    assert b[|a|..] == plan;
  }

  lemma CutCarried(a: seq<Effect>, b: seq<Effect>, plan: seq<Effect>, rest: seq<Effect>)
    requires Carried(a, b, plan, false)
    ensures Carried(a, b, plan + rest, false)
  {
  }

  lemma ThenCarried(a: seq<Effect>, b: seq<Effect>, c: seq<Effect>, plan: seq<Effect>, rest: seq<Effect>, whole: bool)
    requires Carried(a, b, plan, true) && Carried(b, c, rest, whole)
    ensures Carried(a, c, plan + rest, whole)
  {
    assert c[|a|..] == plan + c[|b|..];
  }

  /** The run goes on from where it was. */
  predicate Grows(before: seq<Move>, after: seq<Move>) {
    before <= after
  }

  lemma GrowsOn()
    ensures forall a: seq<Move> :: Grows(a, a)
    ensures forall a: seq<Move>, b: seq<Move>, c: seq<Move> :: Grows(a, b) && Grows(b, c) ==> Grows(a, c)
  {
  }

  class Host {
    const id: MemberId
    var world: World
    var script: seq<Moment>        // what is still to come
    var calls: seq<Effect>
    ghost const start: World
    ghost const whole: seq<Moment>
    ghost var log: seq<Move>
    ghost var at: Proc             // the state of the machine that this program is in
    ghost var heard: Option<Env>   // answers that no statement has used yet

    /** A program that is about to run. */
    constructor (member: MemberId, w: World, moments: seq<Moment>)
      requires member in w.members && Inv(w)
      requires forall i :: 0 <= i < |moments| ==> Foreign(moments[i].others, member)
      ensures Valid() && id == member && world == w && script == moments && calls == [] && log == []
      ensures start == w && whole == moments && at == w.members[member].proc
    {
      id, world, script, calls := member, w, moments, [];
      start, whole, log, at, heard := w, moments, [], w.members[member].proc, None;
      new;
      assert With(world, id, at).members == world.members;
    }

    /** The tables, and the calls made, are those of a run of the machine. */
    ghost predicate Sound()
      reads this
    {
      && id in world.members && Inv(start)
      && With(world, id, at) == Exec(start, log)
      && calls == CallsOf(start, log, id)
      && Scripted()
    }

    /** That run is the one the script tells: every moment so far was answered by one step
        of the machine, and the program dies only where the script ends. */
    ghost predicate Scripted()
      reads this
    {
      && (forall i :: 0 <= i < |script| ==> Foreign(script[i].others, id))
      && |script| <= |whole| && script == whole[|whole| - |script|..]
      && var past := whole[..|whole| - |script|];
      if heard.Some? then
        past != [] && heard.value == past[|past| - 1].env
        && log == Played(past[..|past| - 1], id) + past[|past| - 1].others
      else
        log == Played(past, id)
        || (script == [] && at == Idle && log == Played(past, id) + [Step(id, Crash)])
    }

    ghost predicate Valid()
      reads this
    {
      id in world.members && Sound() && heard.None?
    }

    function Rows(): seq<Row>
      reads this
      requires id in world.members
    {
      world.members[id].rows
    }

    function Sessions(): seq<Session>
      reads this
      requires id in world.members
    {
      world.members[id].sessions
    }

    function Chat(): Group
      reads this
    {
      GroupOf(world, id.chat)
    }

    ghost function Current(): MemberState
      reads this
      requires id in world.members
    {
      world.members[id].(proc := at)
    }

    ghost function StepOf(env: Env): Result
      reads this
      requires id in world.members
    {
      Next(id, Chat(), world.now, Current(), Go(env))
    }

    /** What every run of the machine keeps holds of these tables and this program. */
    lemma Known()
      requires Sound()
      ensures MemberInv(id.user, Chat().epoch, world.now, Current())
    {
      hide MemberInv, Apply, Played;
      ExecKeeps(start, log);
      InvOfMember(With(world, id, at), id);
    }

    /** Lets the others move; None when the process dies, an answer is lost or a statement
        fails, so that the program ends where it is. */
    method Await() returns (env: Option<Env>)
      requires Valid() && at != Idle
      modifies this`world, this`script, this`log, this`at, this`heard
      ensures id in world.members && Sound() && heard == env && Grows(old(log), log)
      ensures env.None? ==> at == Idle && script == []
      ensures env.Some? ==> at == old(at) && |script| < old(|script|)
      ensures |Rows()| >= old(|Rows()|) && |Sessions()| >= old(|Sessions()|)
      ensures forall i :: 0 <= i < old(|Rows()|) ==> Evolves(old(Rows())[i], Rows()[i])
      ensures forall t :: 0 <= t < old(|Sessions()|) ==> SessionEvolves(old(Sessions())[t], Sessions()[t])
    {
      hide Sound, Evolves, SessionEvolves;
      if script == [] {
        Die();
        return None;
      }
      var answers := Hear();
      env := Some(answers);
    }

    method Die()
      requires Valid() && at != Idle && script == []
      modifies this`log, this`at
      ensures Valid() && at == Idle && Grows(old(log), log)
      ensures forall i :: 0 <= i < |Rows()| ==> Evolves(Rows()[i], Rows()[i])
      ensures forall t :: 0 <= t < |Sessions()| ==> SessionEvolves(Sessions()[t], Sessions()[t])
    {
      hide Inv, Apply, Next, Evolves, SessionEvolves, Exec, With, CallsOf, Played;
      Others([]);
      NoMoves(world);
      Crashes();
      assert whole[..|whole| - |script|] == whole;
      log := log + [Step(id, Crash)];
      at := Idle;
    }

    method Hear() returns (env: Env)
      requires Valid() && at != Idle && script != []
      modifies this`world, this`script, this`log, this`heard
      ensures id in world.members && Sound() && heard == Some(env) && Grows(old(log), log)
      ensures |script| < old(|script|)
      ensures |Rows()| >= old(|Rows()|) && |Sessions()| >= old(|Sessions()|)
      ensures forall i :: 0 <= i < old(|Rows()|) ==> Evolves(old(Rows())[i], Rows()[i])
      ensures forall t :: 0 <= t < old(|Sessions()|) ==> SessionEvolves(old(Sessions())[t], Sessions()[t])
    {
      hide Inv, Apply, Next, Evolves, SessionEvolves, Exec, With, CallsOf, Played;
      var moment := script[0];
      Others(moment.others);
      Turn();
      script := script[1..];
      world := Exec(world, moment.others);
      log := log + moment.others;
      env := moment.env;
      heard := Some(env);
    }

    /** The next moment of the script is the last of what then lies behind. */
    lemma Turn()
      requires Scripted() && script != []
      ensures var n := |whole| - |script|;
        && whole[..n + 1][..n] == whole[..n] && whole[..n + 1][n] == script[0] && script[1..] == whole[n + 1..]
    {
    }

    ghost method Others(ms: seq<Move>)
      requires Sound() && Foreign(ms, id)
      ensures id in Exec(world, ms).members
      ensures With(Exec(world, ms), id, at) == Exec(start, log + ms)
      ensures calls == CallsOf(start, log + ms, id)
      ensures var (s, s') := (world.members[id], Exec(world, ms).members[id]);
        && |s.rows| <= |s'.rows| && |s.sessions| <= |s'.sessions|
        && (forall i :: 0 <= i < |s.rows| ==> Evolves(s.rows[i], s'.rows[i]))
        && (forall t :: 0 <= t < |s.sessions| ==> SessionEvolves(s.sessions[t], s'.sessions[t]))
    {
      hide Inv, Apply, Next, Evolves, SessionEvolves, Played;
      ForeignMoves(world, id, at, ms);
      ExecConcat(start, log, ms);
      ForeignCalls(start, log, ms, id);
      ExecKeeps(start, log);
      TablesGrow(With(world, id, at), ms, id);
    }

    ghost method Crashes()
      requires Sound()
      ensures With(world, id, Idle) == Exec(start, log + [Step(id, Crash)])
      ensures calls == CallsOf(start, log + [Step(id, Crash)], id)
    {
      hide Played;
      ExecAppend(start, log, Step(id, Crash));
      CallsAppend(start, log, Step(id, Crash), id);
    }

    ghost method Steps(env: Env, rows: seq<Row>, sessions: seq<Session>, to: Proc, e: Effect)
      requires Sound() && heard == Some(env)
      requires StepOf(env) == (Current().(rows := rows, sessions := sessions, proc := to), e)
      ensures var w := world.(members := world.members[id := world.members[id].(rows := rows, sessions := sessions)]);
        && With(w, id, to) == Exec(start, log + [Step(id, Go(env))])
        && calls + (if e == Quiet then [] else [e]) == CallsOf(start, log + [Step(id, Go(env))], id)
      ensures log + [Step(id, Go(env))] == Played(whole[..|whole| - |script|], id)
    {
      hide Next, Inv;
      ExecAppend(start, log, Step(id, Go(env)));
      CallsAppend(start, log, Step(id, Go(env)), id);
      var w := world.(members := world.members[id := world.members[id].(rows := rows, sessions := sessions)]);
      assert MemberOf(With(world, id, at), id) == Current();
      assert GroupOf(With(world, id, at), id.chat) == Chat();
      assert With(w, id, to).members == Apply(With(world, id, at), Step(id, Go(env))).members;
    }

    /** One database statement or transaction, or a mere test, after Await. */
    method Write(rows: seq<Row>, sessions: seq<Session>, ghost env: Env, ghost to: Proc)
      requires Sound() && heard == Some(env)
      requires StepOf(env) == (Current().(rows := rows, sessions := sessions, proc := to), Quiet)
      modifies this`world, this`log, this`at, this`heard
      ensures Valid() && at == to && Rows() == rows && Sessions() == sessions && Grows(old(log), log)
      ensures world.now == old(world.now) && Chat() == old(Chat())
    {
      hide Next, Inv, Exec, With, CallsOf, Played;
      Steps(env, rows, sessions, to, Quiet);
      world := world.(members := world.members[id := world.members[id].(rows := rows, sessions := sessions)]);
      log := log + [Step(id, Go(env))];
      at := to;
      heard := None;
    }

    /** One Telegram call; `rows` differs from the stored rows only in their history. */
    method Send(origin: Origin, c: Call, env: Env, rows: seq<Row>, ghost to: Proc) returns (o: Outcome)
      requires Sound() && heard == Some(env)
      requires StepOf(env) == (Current().(rows := rows, proc := to), Sent(origin, c, env.outcome))
      modifies this`world, this`log, this`at, this`calls, this`heard
      ensures Valid() && at == to && Rows() == rows && Sessions() == old(Sessions()) && Grows(old(log), log)
      ensures world.now == old(world.now) && Chat() == old(Chat())
      ensures o == env.outcome && calls == old(calls) + [Sent(origin, c, o)]
    {
      hide Next, Inv, Exec, With, CallsOf, Played;
      o := env.outcome;
      Steps(env, rows, Sessions(), to, Sent(origin, c, o));
      world := world.(members := world.members[id := world.members[id].(rows := rows)]);
      calls := calls + [Sent(origin, c, o)];
      log := log + [Step(id, Go(env))];
      at := to;
      heard := None;
    }
  }

  /** Two programs that keep Valid, from the same start under the same script, are at the
      same place with the same tables and calls while as much of the script is left: what a
      program does is the machine's doing. */
  lemma Determined(g: Host, h: Host)
    requires g.Valid() && h.Valid() && g.id == h.id && g.start == h.start && g.whole == h.whole
    requires g.script == h.script && g.script != []
    ensures g.log == h.log && g.calls == h.calls && g.at == h.at
    ensures g.Rows() == h.Rows() && g.Sessions() == h.Sessions() && g.world.now == h.world.now
  {
    assert With(g.world, g.id, g.at).members[g.id] == With(h.world, h.id, h.at).members[h.id];
  }

  lemma LogTells(h: Host)
    requires h.Sound()
    ensures RowsOf(Exec(h.start, h.log), h.id) == h.Rows()
    ensures SessionsOf(Exec(h.start, h.log), h.id) == h.Sessions()
  {
    hide Exec, Inv, CallsOf, Played;
  }

  /** What was stored when the run stood at `before` is still there, as far as no writer
      ever changes it. */
  lemma StoredStays(h: Host, before: seq<Move>)
    requires h.Sound() && before <= h.log
    ensures var (rows, rows') := (RowsOf(Exec(h.start, before), h.id), h.Rows());
      |rows| <= |rows'| && forall i :: 0 <= i < |rows| ==> Evolves(rows[i], rows'[i])
    ensures var (ss, ss') := (SessionsOf(Exec(h.start, before), h.id), h.Sessions());
      |ss| <= |ss'| && forall t :: 0 <= t < |ss| ==> SessionEvolves(ss[t], ss'[t])
  {
    hide Inv, Evolves, SessionEvolves, Exec, Played, CallsOf;
    var since := h.log[|before|..];
    assert h.log == before + since;
    ExecConcat(h.start, before, since);
    ExecKeeps(h.start, before);
    TablesGrow(Exec(h.start, before), since, h.id);
  }
}
