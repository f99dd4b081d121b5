/** Losing approval: one commit ends every pending punishment of the chat for good
    and hands what may have taken effect to the release path. */
module Revocation {
  import opened Domain
  import opened Tables
  import opened Machine
  import opened Invariant
  import opened Preservation
  import opened Evolution
  import opened Effects
  import opened World
  import opened Runs

  /** The loss of approval of a registered chat. */
  predicate Loses(w: World, m: Move, chat: int) {
    m.Authorize? && m.chat == chat && m.status != Approved && GroupOf(w, chat).known
  }

  /** In one commit the epoch moves on, no punishment of the chat stays pending, each
      started mute, ban or kick among them gets a due release, and every session that
      could still be answered or expire goes to the release path. */
  lemma RevocationCommits(w: World, m: Move, id: MemberId)
    requires Reachable(w) && Loses(w, m, id.chat)
    ensures var w' := Apply(w, m);
      && !Authorized(GroupOf(w', id.chat)) && GroupOf(w', id.chat).epoch == GroupOf(w, id.chat).epoch + 1
      && |RowsOf(w', id)| == |RowsOf(w, id)| && |SessionsOf(w', id)| == |SessionsOf(w, id)|
      && (forall i :: 0 <= i < |RowsOf(w, id)| ==> CutOff(RowsOf(w, id)[i], RowsOf(w', id)[i], w.now))
      && (forall t :: 0 <= t < |SessionsOf(w, id)| ==>
            (Active(SessionsOf(w, id)[t]) <==> SessionsOf(w', id)[t].status == Releasing))
  {
    hide ProcInv, SessionsInv, OwnInv, Inv, Reachable;
    ReachableInv(w);
    InvOfMember(w, id);
  }

  /** A finished row is untouched; a pending one is skipped, and owes a release exactly
      when it already did or a restriction of it was started. */
  predicate CutOff(r: Row, r': Row, now: int) {
    if r.status != Pending then r' == r
    else
      && r'.status == Skipped && r'.started == r.started && r'.acted == r.acted && r'.sent == r.sent
      && (r.started && Restricting(r.decision.action) ==>
            r'.releaseNeeded && r'.revoked && ReleaseDue(r', now))
      && (!(r.started && Restricting(r.decision.action)) ==> r'.releaseNeeded == r.releaseNeeded && r'.revoked == r.revoked)
  }

  /** Who changes a chat, and how: only an administrator of the bot approves it, and only while
      it is active; every other decision on a known chat takes the approval and moves the epoch
      on; leaving it makes it inactive, and being added again active, without an approval. */
  lemma ChatsChange(w: World, m: Move, chat: int)
    ensures var (g, g') := (GroupOf(w, chat), GroupOf(Apply(w, m), chat));
      var decided := m.Authorize? && m.chat == chat && g.known && (m.status == Approved ==> g.active);
      var added := m == Register(chat) && chat < 0;
      && g'.approved == (if decided then m.status == Approved else g.approved)
      && g'.epoch == (if decided && m.status != Approved then g.epoch + 1 else g.epoch)
      && g'.active == (if decided && m.leaving then false else g.active || added)
      && g'.known == (g.known || added)
  {
    hide Next, RevokeRows, ReleaseSessions, ExpireDue, Authorized;
  }

  /** Switching verification off in a chat under approval hands its sessions to the release
      path, those of no other chat, and nothing else changes. */
  lemma SettingsRelease(w: World, chat: int, on: bool, id: MemberId, t: nat)
    requires t < |SessionsOf(w, id)|
    ensures var (g, v) := (GroupOf(w, chat), SessionsOf(w, id)[t]);
      t < |SessionsOf(Apply(w, Configure(chat, on)), id)|
      && SessionsOf(Apply(w, Configure(chat, on)), id)[t]
           == if id.chat == chat && !on && g.known && g.active && g.approved && v.status in {VPending, Completing, Expiring}
              then v.(status := Releasing) else v
  {
  }

  lemma {:induction false} FrozenRow(w: World, ms: seq<Move>, id: MemberId, k: nat)
    requires Inv(w) && k < |RowsOf(w, id)| && RowsOf(w, id)[k].status != Pending
    ensures k < |RowsOf(Exec(w, ms), id)|
    ensures var (r, r') := (RowsOf(w, id)[k], RowsOf(Exec(w, ms), id)[k]);
      && r'.status == r.status && r'.started == r.started && r'.acted == r.acted
      && r'.deleted == r.deleted && r'.rejected == r.rejected
    decreases |ms|
  {
    hide Inv, Apply;
    if ms != [] {
      ApplyKeeps(w, ms[0]);
      ApplySteps(w, ms[0], id);
      StepEvolves(w, ms[0], id, k);
      FrozenRow(Apply(w, ms[0]), ms[1..], id, k);
    }
  }

  lemma {:induction false} ReleaseStays(w: World, ms: seq<Move>, id: MemberId, k: nat)
    requires Inv(w) && k < |RowsOf(w, id)| && RowsOf(w, id)[k].revoked && RowsOf(w, id)[k].releaseNeeded
    ensures k < |RowsOf(Exec(w, ms), id)|
    ensures RowsOf(Exec(w, ms), id)[k].releaseNeeded
            || exists i :: 0 <= i < |ms| && SettlesIn(Before(w, ms, i), ms[i], id, k)
    decreases |ms|
  {
    hide Inv, Apply, SettlesIn;
    if ms != [] {
      RowsEvolve(w, ms, id, k);
      ApplyKeeps(w, ms[0]);
      ApplySteps(w, ms[0], id);
      StepEvolves(w, ms[0], id, k);
      RowFacts(w, id, k);
      var w1 := Apply(w, ms[0]);
      if SettlesIn(w, ms[0], id, k) {
        assert Before(w, ms, 0) == w;
      } else {
        RowFacts(w1, id, k);
        ReleaseStays(w1, ms[1..], id, k);
        if !RowsOf(Exec(w, ms), id)[k].releaseNeeded {
          var i :| 0 <= i < |ms[1..]| && SettlesIn(Before(w1, ms[1..], i), ms[1..][i], id, k);
          AfterFirst(w, ms, i + 1);
          assert ms[i + 1] == ms[1..][i];
        }
      }
    }
  }

  /** Whatever happens after the loss of approval, re-approval and late answers of
      Telegram included: a punishment that was pending neither starts nor commits
      again, and the release of a started restriction stays until a release step of
      it restored the member or found something newer. */
  lemma RevokedForever(w: World, m: Move, id: MemberId, k: nat, ms: seq<Move>)
    requires Reachable(w) && Loses(w, m, id.chat)
    requires k < |RowsOf(w, id)| && RowsOf(w, id)[k].status == Pending
    ensures var w1 := Apply(w, m); var r := RowsOf(w, id)[k];
      && k < |RowsOf(w1, id)| && k < |RowsOf(Exec(w1, ms), id)|
      && (var r' := RowsOf(Exec(w1, ms), id)[k];
          && r'.status == Skipped && r'.started == r.started && r'.acted == r.acted
          && (r.started && Restricting(r.decision.action) ==>
                (r'.releaseNeeded && r'.releaseAt.Some?)
                || exists i :: 0 <= i < |ms| && SettlesIn(Before(w1, ms, i), ms[i], id, k)))
  {
    hide Inv, Apply, SettlesIn;
    ReachableInv(w);
    RevocationCommits(w, m, id);
    ApplyKeeps(w, m);
    var w1 := Apply(w, m);
    FrozenRow(w1, ms, id, k);
    ExecKeeps(w1, ms);
    if RowsOf(w, id)[k].started && Restricting(RowsOf(w, id)[k].decision.action) {
      ReleaseStays(w1, ms, id, k);
    }
    RowFacts(Exec(w1, ms), id, k);
  }

  /** The epoch test of AuthorityHolds never decides: in every reachable state a pending
      punishment with a workflow carries the current epoch of its chat, so it has the
      authority to act exactly when the chat is approved and active. */
  lemma AuthorityIsApproval(w: World, id: MemberId, k: nat)
    requires Reachable(w) && k < |RowsOf(w, id)|
    ensures var (g, r) := (GroupOf(w, id.chat), RowsOf(w, id)[k]);
      && (r.status == Pending && r.workflow ==> r.version == g.epoch)
      && (AuthorityHolds(g, r) <==> Authorized(g) && r.status == Pending && r.workflow)
  {
    ReachableInv(w);
    RowFacts(w, id, k);
  }
}
