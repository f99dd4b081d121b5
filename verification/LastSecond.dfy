/** The one gap of the release rule, as a run: a timed mute that was sent and then given up
    in its last second no longer protects the member from the release of an older
    punishment, although the mute is still in force. */
module LastSecond {
  import opened Domain
  import opened Tables
  import opened Machine
  import opened World
  import opened Runs
  import opened Releases

  const Who: MemberId := MemberId(-1, 7)
  const Approved0: Group := Group(true, true, true, 0)
  const Yes: Env := Env(Accepted, Member, false, true, false, false)
  const Lost: Env := Env(Unknown, Member, false, true, false, false)

  function Chat(now: int, s: MemberState): World {
    World(now, map[-1 := Approved0], map[Who := s])
  }

  lemma Stepped(now: int, s: MemberState, l: Label)
    requires Reachable(Chat(now, s))
    ensures Reachable(Chat(now, Next(Who, Approved0, now, s, l).0))
  {
    hide Next;
    var m := Step(Who, l);
    StaysReachable(Chat(now, s), [m]);
    assert Exec(Chat(now, s), [m]) == Exec(Apply(Chat(now, s), m), []);
    assert Apply(Chat(now, s), m).members == map[Who := Next(Who, Approved0, now, s, l).0];
  }

  lemma Waited(now: int, s: MemberState, d: nat)
    requires Reachable(Chat(now, s))
    ensures Reachable(Chat(now + d, s))
  {
    StaysReachable(Chat(now, s), [Tick(d)]);
    assert Exec(Chat(now, s), [Tick(d)]) == Exec(Apply(Chat(now, s), Tick(d)), []);
  }

  function Order(key: int, seconds: nat): Label {
    BeginPunish(Event(key), 0, Decision(Mute, false, seconds, OtherReason), Automatic, false, None)
  }

  /** The stored row of a mute before its restrict call, and after one sent at once. */
  function Begun(key: int, seconds: nat, at: int): Row {
    Fresh(key, seconds, at)
      .(workflow := true, started := true, releaseNeeded := true, releaseAt := Some(at + seconds * SECOND))
  }

  function Muted(key: int, seconds: nat, at: int): Row {
    Begun(key, seconds, at).(sent := true, until := UntilDate(at, seconds))
  }

  lemma WholeSeconds(seconds: nat)
    ensures Seconds(seconds * SECOND) == seconds
  {
  }

  predicate Quiescent(s: MemberState) {
    s.proc == Idle && forall i :: 0 <= i < |s.rows| ==> s.rows[i].source != Manual
  }

  function AtPc(s: MemberState, rows: seq<Row>, run: Run): MemberState {
    s.(rows := rows, proc := Punishing(run))
  }

  lemma NewKey(rows: seq<Row>, r: Row)
    requires !HasKey(rows, r.key)
    ensures InsertRow(rows, r) == rows + [r] && HasKey(rows + [r], r.key) && KeyIndex(rows + [r], r.key) == |rows|
  {
    assert (rows + [r])[|rows|].key == r.key;
    var i := KeyIndex(rows + [r], r.key);
    assert forall j :: 0 <= j < |rows| ==> (rows + [r])[j].key != r.key;
  }

  /** Taking the order: the row is found or inserted. */
  lemma Ordered(now: int, s: MemberState, key: int, seconds: nat)
    requires Reachable(Chat(now, s)) && Quiescent(s) && seconds > 0
    requires s.rows == [] || s.rows[|s.rows| - 1].createdAt < now
    ensures var rows := InsertRow(s.rows, Fresh(key, seconds, now));
      HasKey(rows, Event(key))
      && Reachable(Chat(now, AtPc(s, rows, Run(KeyIndex(rows, Event(key)), AddWorkflow, false, false, false, false, 0, None))))
  {
    hide Reachable, Exec;
    Stepped(now, s, Order(key, seconds));
    var s1 := s.(proc := Preparing(Fresh(key, seconds, now), None));
    assert Next(Who, Approved0, now, s, Order(key, seconds)).0 == s1;
    InsertedKey(s.rows, Fresh(key, seconds, now));
    Stepped(now, s1, Go(Yes));
  }

  function Fresh(key: int, seconds: nat, at: int): Row {
    NewRow(Event(key), 0, Decision(Mute, false, seconds, OtherReason), Automatic, at)
  }

  lemma InsertedKey(rows: seq<Row>, r: Row)
    ensures HasKey(InsertRow(rows, r), r.key)
  {
    assert !HasKey(rows, r.key) ==> InsertRow(rows, r)[|rows|].key == r.key;
  }

  function Snap(k: nat, r: Row, pc: PunishPc, seconds: nat): Run {
    Run(k, pc, r.deleted, r.acted, r.started, r.acted || r.deleted || r.started, seconds, None)
  }

  /** Up to the last check before anything is touched. */
  lemma Checked(now: int, s: MemberState, k: nat, r: Row)
    requires k < |s.rows| && s.rows[k] == r && r.status == Pending && r.version == 0
    requires Reachable(Chat(now, AtPc(s, s.rows, Run(k, AddWorkflow, false, false, false, false, 0, None))))
    requires r.source == Automatic
    ensures Reachable(Chat(now, AtPc(s, s.rows[k := r.(workflow := true)], Snap(k, r, CheckNewer, 0))))
  {
    hide Reachable, Exec;
    var run := Run(k, AddWorkflow, false, false, false, false, 0, None);
    var rows := s.rows[k := r.(workflow := true)];
    assert InsertWorkflow(Approved0, r) == r.(workflow := true);
    Stepped(now, AtPc(s, s.rows, run), Go(Yes));
    Stepped(now, AtPc(s, rows, run.(pc := ReadRow)), Go(Yes));
    Stepped(now, AtPc(s, rows, Snap(k, r, Preflight, 0)), Go(Yes));
  }

  /** The write-ahead commit and the deadline test. */
  lemma Started(now: int, s: MemberState, k: nat, r: Row)
    requires k < |s.rows| && s.rows[k] == r && r.status == Pending && r.workflow && r.version == 0
    requires r.decision.action == Mute && TimedMute(r.decision) && !r.decision.delete && !r.acted
    requires !r.started ==> now < Deadline(r)
    requires forall i :: 0 <= i < |s.rows| ==> s.rows[i].source != Manual
    requires Reachable(Chat(now, AtPc(s, s.rows, Snap(k, r, CheckNewer, 0))))
    ensures var r' := r.(started := true, releaseNeeded := true, releaseAt := Some(Deadline(r)));
      Reachable(Chat(now, AtPc(s, s.rows[k := r'], 
        if Deadline(r) - now >= SECOND then Snap(k, r, MainCall, Seconds(Deadline(r) - now)) else Snap(k, r, MarkFailed, 0))))
  {
    hide Reachable, Exec;
    var rows := s.rows[k := r.(started := true, releaseNeeded := true, releaseAt := Some(Deadline(r)))];
    Stepped(now, AtPc(s, s.rows, Snap(k, r, CheckNewer, 0)), Go(Yes));
    Stepped(now, AtPc(s, s.rows, Snap(k, r, StartCall, 0)), Go(Yes));
    Stepped(now, AtPc(s, rows, Snap(k, r, CheckDeadline, 0)), Go(Yes));
  }

  /** A new mute whose call was sent; the answer is lost. */
  lemma MuteSent(now: int, s: MemberState, key: int, seconds: nat)
    requires Reachable(Chat(now, s)) && Quiescent(s) && seconds > 0 && !HasKey(s.rows, Event(key))
    requires forall i :: 0 <= i < |s.rows| ==> s.rows[i].createdAt < now
    ensures Reachable(Chat(now, s.(rows := s.rows + [Muted(key, seconds, now)])))
  {
    hide Reachable, Exec, Next;
    var r, k := Fresh(key, seconds, now), |s.rows|;
    NewKey(s.rows, r);
    Ordered(now, s, key, seconds);
    var t := s.(rows := s.rows + [r]);
    Checked(now, t, k, r);
    var r1 := r.(workflow := true);
    var t1 := t.(rows := t.rows[k := r1]);
    assert AtPc(t, t.rows[k := r1], Snap(k, r, CheckNewer, 0)) == AtPc(t1, t1.rows, Snap(k, r1, CheckNewer, 0));
    Started(now, t1, k, r1);
    var r2 := Begun(key, seconds, now);
    WholeSeconds(seconds);
    Called(now, t1.(rows := t1.rows[k := r2]), k, r2, seconds);
    assert s.(rows := s.rows + [Muted(key, seconds, now)]) == s.(rows := t1.rows[k := r2][k := Muted(key, seconds, now)]);
  }

  lemma Called(now: int, s: MemberState, k: nat, r: Row, seconds: nat)
    requires k < |s.rows| && s.rows[k] == r && r.decision.action == Mute && !r.sent && !r.settled && r.until == None
    requires Reachable(Chat(now, AtPc(s, s.rows, Run(k, MainCall, false, false, false, false, seconds, None))))
    ensures Reachable(Chat(now, s.(rows := s.rows[k := r.(sent := true, until := UntilDate(now, seconds))], proc := Idle)))
  {
    hide Reachable, Exec, UntilDate;
    Stepped(now, AtPc(s, s.rows, Run(k, MainCall, false, false, false, false, seconds, None)), Go(Lost));
  }

  lemma GivenUp(now: int, s: MemberState, k: nat, r: Row)
    requires k < |s.rows| && s.rows[k] == r && r.status == Pending && s.proc == Idle
    requires Reachable(Chat(now, AtPc(s, s.rows, Snap(k, r, MarkFailed, 0))))
    ensures Reachable(Chat(now, s.(rows := s.rows[k := r.(status := Failed)])))
  {
    hide Reachable, Exec;
    Stepped(now, AtPc(s, s.rows, Snap(k, r, MarkFailed, 0)), Go(Yes));
  }

  /** A retry of the newest mute with less than a second left gives it up. */
  lemma RetryGivesUp(now: int, s: MemberState, rows: seq<Row>, key: int, seconds: nat, at: int)
    requires s.rows == rows + [Muted(key, seconds, at)] && !HasKey(rows, Event(key))
    requires Reachable(Chat(now, s)) && Quiescent(s) && at < now && seconds > 0
    requires 0 < at + seconds * SECOND - now < SECOND
    ensures Reachable(Chat(now, s.(rows := rows + [Muted(key, seconds, at).(status := Failed)])))
  {
    hide Reachable, Exec, Next;
    var r, k := Muted(key, seconds, at), |rows|;
    NewKey(rows, r);
    Ordered(now, s, key, seconds);
    Checked(now, s, k, r);
    assert s.rows[k := r] == s.rows;
    Started(now, s, k, r);
    GivenUp(now, s, k, r);
    assert rows + [r.(status := Failed)] == s.rows[k := r.(status := Failed)];
  }

  /** The release of row 0 goes out unless something newer holds. */
  lemma ReleaseGoes(now: int, s: MemberState) returns (s': MemberState)
    requires Reachable(Chat(now, s)) && s.proc == Idle && |s.rows| > 0 && ReleaseDue(s.rows[0], now)
    requires s.rows[0].decision.action == Mute && !NewerPermission(s.rows, s.sessions, s.rows[0].createdAt)
    ensures s'.rows == s.rows && Reachable(Chat(now, s'))
    ensures EffectOn(Chat(now, s'), Step(Who, Go(Yes)), Who) == Sent(FromRelease(0), Restore, Accepted)
  {
    hide Reachable, Exec;
    Stepped(now, s, ListDue(0));
    var s1 := s.(due := s.due + {0});
    Stepped(now, s1, BeginRelease(0));
    Stepped(now, s1.(proc := ReleasingRow(0, LookForNewer)), Go(Yes));
    s' := s1.(proc := ReleasingRow(0, ReleaseCall));
  }

  /** For every duration that a mute can have, some run sends the release of row 0 while the
      newer mute of row 1 is in force: both mutes last that long, the second one begins and
      is sent one second after the first, on a whole second, its answer is lost, and it is
      tried again one microsecond before its end. */
  lemma LastSecondIsReachable(seconds: nat) returns (w: World, m: Move)
    requires 30 <= seconds <= 366 * 86_400
    ensures Reachable(w) && |RowsOf(w, Who)| == 2 && InForce(RowsOf(w, Who)[1], w.now)
    ensures forall i :: 0 <= i < 2 ==> RowsOf(w, Who)[i].decision == Decision(Mute, false, seconds, OtherReason)
    ensures EffectOn(w, m, Who) == Sent(FromRelease(0), Restore, Accepted)
  {
    hide Reachable, Exec, Next, EffectOn;
    Approves();
    var (a, b) := (SECOND, 2 * SECOND);
    Waited(0, Nobody, a);
    MuteSent(a, Nobody, 1, seconds);
    var s1 := MemberState([Muted(1, seconds, a)], [], Idle, {});
    assert Nobody.(rows := Nobody.rows + [Muted(1, seconds, a)]) == s1;
    Waited(a, s1, b - a);
    MuteSent(b, s1, 2, seconds);
    var s2 := s1.(rows := s1.rows + [Muted(2, seconds, b)]);
    var late := b + seconds * SECOND - 1;
    Waited(b, s2, late - b);
    RetryGivesUp(late, s2, s1.rows, 2, seconds, b);
    var s3 := s1.(rows := s1.rows + [Muted(2, seconds, b).(status := Failed)]);
    var s4 := ReleaseGoes(late, s3);
    w, m := Chat(late, s4), Step(Who, Go(Yes));
  }

  lemma Approves()
    ensures Reachable(Chat(0, Nobody))
  {
    var w1 := Apply(Empty(0), Register(-1));
    var w2 := Apply(w1, Authorize(-1, Approved, false));
    var w3 := Apply(w2, Step(Who, Crash));
    assert w3 == Chat(0, Nobody);
    var ms := [Register(-1), Authorize(-1, Approved, false), Step(Who, Crash)];
    assert ms[1..] == [Authorize(-1, Approved, false), Step(Who, Crash)];
    assert ms[1..][1..] == [Step(Who, Crash)];
    assert Exec(w2, [Step(Who, Crash)]) == Exec(w3, []);
    assert Exec(Empty(0), ms) == Exec(w1, ms[1..]) == Exec(w2, ms[1..][1..]) == w3;
  }
}
