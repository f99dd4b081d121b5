/** Following one row and one session through a run. */
module Runs {
  import opened Domain
  import opened Tables
  import opened Machine
  import opened Invariant
  import opened Preservation
  import opened Evolution
  import opened Effects
  import opened World

  // ---------------------------------------------------------------- following a row and a session

  function RowsOf(w: World, id: MemberId): seq<Row> {
    MemberOf(w, id).rows
  }

  function SessionsOf(w: World, id: MemberId): seq<Session> {
    MemberOf(w, id).sessions
  }

  /** The state before move i of a run. */
  function Before(w: World, ms: seq<Move>, i: nat): World
    requires i <= |ms|
  {
    Exec(w, ms[..i])
  }

  lemma InvOfMember(w: World, id: MemberId)
    requires Inv(w)
    ensures MemberInv(id.user, GroupOf(w, id.chat).epoch, w.now, MemberOf(w, id))
  {
  }

  lemma RowFacts(w: World, id: MemberId, i: nat)
    requires Inv(w) && i < |RowsOf(w, id)|
    ensures RowInv(id.user, GroupOf(w, id.chat).epoch, w.now, RowsOf(w, id)[i])
    ensures forall j :: 0 <= j < i ==> RowsOf(w, id)[j].createdAt < RowsOf(w, id)[i].createdAt
    ensures ManualActed(RowsOf(w, id)[i]) ==> forall j :: 0 <= j < i ==> RowsOf(w, id)[j].status != Pending
  {
    InvOfMember(w, id);
  }

  lemma {:induction false} RowsEvolve(w: World, ms: seq<Move>, id: MemberId, i: nat)
    requires Inv(w) && i < |RowsOf(w, id)|
    ensures i < |RowsOf(Exec(w, ms), id)| && Evolves(RowsOf(w, id)[i], RowsOf(Exec(w, ms), id)[i])
    decreases |ms|
  {
    hide Inv, Apply, RowStep;
    if ms != [] {
      ApplyKeeps(w, ms[0]);
      ApplySteps(w, ms[0], id);
      StepEvolves(w, ms[0], id, i);
      RowsEvolve(Apply(w, ms[0]), ms[1..], id, i);
    }
  }

  lemma StepEvolves(w: World, m: Move, id: MemberId, i: nat)
    requires MemberSteps(w, m, id) && i < |RowsOf(w, id)|
    ensures i < |RowsOf(Apply(w, m), id)|
    ensures Evolves(RowsOf(w, id)[i], RowsOf(Apply(w, m), id)[i])
    ensures RowStep(RowsOf(w, id)[i], RowsOf(Apply(w, m), id)[i],
                    SettlesIn(w, m, id, i), ConfirmsIn(w, m, id, i), CommitsIn(w, m, id, i))
  {
  }

  /** What no run may undo in a session: its status only moves up in rank, its
      attempts only grow and its recorded answers stay. */
  predicate SessionEvolves(v: Session, v': Session) {
    && v'.own == v.own && v'.answer == v.answer && v'.failAction == v.failAction && v'.createdAt == v.createdAt
    && (v'.status == v.status || Rank(v.status) < Rank(v'.status))
    && v.attempts <= v'.attempts && (v.answered ==> v'.answered)
    && (forall e :: e in v.answers ==> e in v'.answers && v'.answers[e] == v.answers[e])
  }

  lemma StepOfSession(w: World, m: Move, id: MemberId, t: nat)
    requires MemberSteps(w, m, id) && t < |SessionsOf(w, id)|
    ensures t < |SessionsOf(Apply(w, m), id)|
    ensures SessionStep(SessionsOf(w, id)[t], SessionsOf(Apply(w, m), id)[t])
    ensures SessionEvolves(SessionsOf(w, id)[t], SessionsOf(Apply(w, m), id)[t])
  {
  }

  lemma {:induction false} SessionsEvolve(w: World, ms: seq<Move>, id: MemberId, t: nat)
    requires Inv(w) && t < |SessionsOf(w, id)|
    ensures t < |SessionsOf(Exec(w, ms), id)| && SessionEvolves(SessionsOf(w, id)[t], SessionsOf(Exec(w, ms), id)[t])
    decreases |ms|
  {
    hide Inv, Apply;
    if ms != [] {
      ApplyKeeps(w, ms[0]);
      ApplySteps(w, ms[0], id);
      StepOfSession(w, ms[0], id, t);
      SessionsEvolve(Apply(w, ms[0]), ms[1..], id, t);
    }
  }

  /** Splitting off the first move of a run. */
  lemma AfterFirst(w: World, ms: seq<Move>, i: nat)
    requires 0 < i <= |ms|
    ensures Before(w, ms, i) == Before(Apply(w, ms[0]), ms[1..], i - 1)
  {
    hide Apply;
    assert ms[..i][0] == ms[0] && ms[..i][1..] == ms[1..][..i - 1];
  }

  /** Every state along a run satisfies the invariant. */
  lemma InvAlong(w: World, ms: seq<Move>, i: nat)
    requires Inv(w) && i <= |ms|
    ensures Inv(Before(w, ms, i))
  {
    ExecKeeps(w, ms[..i]);
  }

  /** One more move, and the rest of the run. */
  lemma Along(w: World, ms: seq<Move>, i: nat)
    requires i < |ms|
    ensures Before(w, ms, i + 1) == Apply(Before(w, ms, i), ms[i])
    ensures Exec(w, ms) == Exec(Before(w, ms, i + 1), ms[i + 1..])
  {
    hide Apply;
    assert ms[..i + 1] == ms[..i] + [ms[i]];
    ExecAppend(w, ms[..i], ms[i]);
    assert ms == ms[..i + 1] + ms[i + 1..];
    ExecConcat(w, ms[..i + 1], ms[i + 1..]);
  }
}
