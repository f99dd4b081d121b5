/** Counters, replay memory and locks kept in Redis. Each script is one atomic step;
    times are in milliseconds and a key lives up to and including its expiry. */
module Limiter {
  import opened Domain

  datatype Counter = Counter(n: nat, expiresAt: int)

  predicate LiveAt(c: Option<Counter>, now: int) {
    c.Some? && now <= c.value.expiresAt
  }

  /** INCR, and PEXPIRE when the key is new. */
  function Bump(c: Option<Counter>, now: int, ttl: nat): Counter {
    if LiveAt(c, now) then Counter(c.value.n + 1, c.value.expiresAt) else Counter(1, now + ttl)
  }

  predicate Ascending(times: seq<int>) {
    forall i, j :: 0 <= i < j < |times| ==> times[i] <= times[j]
  }

  // ---------------------------------------------------------------- Limit over a run

  /** The counter after calls at these times. */
  function After(times: seq<int>, ttl: nat): Option<Counter> {
    if times == [] then None
    else Some(Bump(After(times[..|times| - 1], ttl), times[|times| - 1], ttl))
  }

  /** Whether the last of these calls is accepted. */
  predicate LastAccepted(times: seq<int>, max: nat, ttl: nat)
    requires times != []
  {
    After(times, ttl).value.n <= max
  }

  /** The call that opened the window of call i. */
  function Opener(times: seq<int>, ttl: nat, i: nat): (o: nat)
    requires i < |times|
    ensures o <= i
  {
    if i == 0 then 0
    else
      var o := Opener(times, ttl, i - 1);
      if times[i] <= times[o] + ttl then o else i
  }

  lemma {:induction false} AfterCounts(times: seq<int>, ttl: nat, i: nat)
    requires i < |times|
    ensures var o := Opener(times, ttl, i);
      After(times[..i + 1], ttl) == Some(Counter(i - o + 1, times[o] + ttl))
  {
    assert times[..i + 1][..i] == times[..i];
    if i > 0 {
      AfterCounts(times, ttl, i - 1);
    }
  }

  /** Exactly the first `max` calls of each window are accepted. */
  lemma AcceptsFirst(times: seq<int>, max: nat, ttl: nat, i: nat)
    requires i < |times|
    ensures LastAccepted(times[..i + 1], max, ttl) <==> i - Opener(times, ttl, i) < max
    ensures times[i] <= times[Opener(times, ttl, i)] + ttl
  {
    AfterCounts(times, ttl, i);
    if i > 0 {
      AcceptsFirst(times, max, ttl, i - 1);
    }
  }

  function AcceptedIn(times: seq<int>, max: nat, ttl: nat, from: int, to: int): nat {
    if times == [] then 0
    else
      AcceptedIn(times[..|times| - 1], max, ttl, from, to)
      + if from <= times[|times| - 1] < to && LastAccepted(times, max, ttl) then 1 else 0
  }

  function Least(a: nat, b: nat): nat {
    if a <= b then a else b
  }

  function Burst(max: nat): nat {
    if max == 0 then 0 else 2 * max - 1
  }

  /** How many accepted calls an interval of length ttl can hold so far, by where the
      current window opened. */
  lemma {:induction false} WindowBound(times: seq<int>, max: nat, ttl: nat, from: int)
    requires Ascending(times) && ttl > 0
    ensures var k := AcceptedIn(times, max, ttl, from, from + ttl);
      match After(times, ttl)
      case None => k == 0
      case Some(c) =>
        && c.expiresAt - ttl <= times[|times| - 1] <= c.expiresAt
        && c.n >= 1
        && (times[|times| - 1] < from ==> k == 0)
        && (c.expiresAt - ttl < from ==> k <= (if max == 0 then 0 else Least(c.n, max) - 1))
        && (from <= c.expiresAt - ttl < from + ttl ==> k <= (if max == 0 then 0 else max - 1) + Least(c.n, max))
        && k <= Burst(max)
  {
    if times != [] {
      var pre := times[..|times| - 1];
      WindowBound(pre, max, ttl, from);
      if pre != [] {
        assert pre[|pre| - 1] <= times[|times| - 1];
        assert After(pre, ttl).Some?;
      }
    }
  }

  /** Any half-open interval of length ttl holds fewer than 2 * max accepted calls. */
  lemma FewerThanTwiceMax(times: seq<int>, max: nat, ttl: nat, from: int)
    requires Ascending(times) && ttl > 0
    ensures AcceptedIn(times, max, ttl, from, from + ttl) <= Burst(max)
  {
    WindowBound(times, max, ttl, from);
  }

  /** n calls at one instant. */
  function Calls(at: int, n: nat): seq<int> {
    seq(n, i => at)
  }

  /** Calls at one instant of an open window are counted one by one. */
  lemma {:induction false} CallsCount(times: seq<int>, max: nat, ttl: nat, from: int, to: int, at: int, n: nat)
    requires LiveAt(After(times, ttl), at) && After(times, ttl).value.n + n <= max
    ensures After(times + Calls(at, n), ttl) == Some(Counter(After(times, ttl).value.n + n, After(times, ttl).value.expiresAt))
    ensures AcceptedIn(times + Calls(at, n), max, ttl, from, to)
         == AcceptedIn(times, max, ttl, from, to) + if from <= at < to then n else 0
    decreases n
  {
    if n == 0 {
      assert times + Calls(at, n) == times;
    } else {
      CallsCount(times, max, ttl, from, to, at, n - 1);
      assert (times + Calls(at, n))[..|times| + n - 1] == times + Calls(at, n - 1);
    }
  }

  /** A call that opens a window. */
  lemma OpensWindow(times: seq<int>, max: nat, ttl: nat, from: int, to: int, at: int)
    requires !LiveAt(After(times, ttl), at) && max >= 1
    ensures After(times + [at], ttl) == Some(Counter(1, at + ttl))
    ensures AcceptedIn(times + [at], max, ttl, from, to)
         == AcceptedIn(times, max, ttl, from, to) + if from <= at < to then 1 else 0
  {
    assert (times + [at])[..|times|] == times;
  }

  /** One window opened early and filled at its very end, and the next one filled at once. */
  function BurstTimes(max: nat, ttl: nat): seq<int>
    requires max >= 1
  {
    [0] + Calls(ttl, max - 1) + [ttl + 1] + Calls(ttl + 1, max - 1)
  }

  lemma BurstAscends(max: nat, ttl: nat)
    requires max >= 1
    ensures Ascending(BurstTimes(max, ttl))
  {
  }

  lemma NoCalls(max: nat, ttl: nat, from: int, to: int)
    ensures After([], ttl).None? && AcceptedIn([], max, ttl, from, to) == 0
  {
  }

  lemma BurstCounts(max: nat, ttl: nat, from: int)
    requires max >= 1 && ttl > 0
    ensures AcceptedIn(BurstTimes(max, ttl), max, ttl, from, from + ttl)
         == (if from <= 0 < from + ttl then 1 else 0) + (if from <= ttl < from + ttl then max - 1 else 0)
            + (if from <= ttl + 1 < from + ttl then max else 0)
  {
    hide After, AcceptedIn, Calls;
    NoCalls(max, ttl, from, from + ttl);
    OpensWindow([], max, ttl, from, from + ttl, 0);
    assert [] + [0] == [0];
    CallsCount([0], max, ttl, from, from + ttl, ttl, max - 1);
    var a := [0] + Calls(ttl, max - 1);
    OpensWindow(a, max, ttl, from, from + ttl, ttl + 1);
    CallsCount(a + [ttl + 1], max, ttl, from, from + ttl, ttl + 1, max - 1);
  }

  /** With a time to live of one, an interval of its length is one instant, which belongs to
      one window. */
  lemma {:induction false} OneInstant(times: seq<int>, max: nat, from: int)
    requires Ascending(times)
    ensures var k := AcceptedIn(times, max, 1, from, from + 1);
      match After(times, 1)
      case None => k == 0
      case Some(c) =>
        && c.expiresAt - 1 <= times[|times| - 1] <= c.expiresAt && c.n >= 1
        && (times[|times| - 1] < from ==> k == 0)
        && (c.expiresAt - 1 <= from ==> k <= Least(c.n, max))
        && k <= max
  {
    if times != [] {
      var pre := times[..|times| - 1];
      OneInstant(pre, max, from);
      if pre != [] {
        assert pre[|pre| - 1] <= times[|times| - 1];
        assert After(pre, 1).Some?;
      }
    }
  }

  ghost predicate Reaches(max: nat, ttl: nat, times: seq<int>, from: int) {
    Ascending(times) && AcceptedIn(times, max, ttl, from, from + ttl) == Burst(max)
  }

  /** The bound is reached by some calls exactly when a window is longer than one millisecond or
      accepts at most one call. */
  lemma BurstIsReachedIff(max: nat, ttl: nat)
    requires ttl > 0
    ensures (exists times, from :: Reaches(max, ttl, times, from)) <==> max <= 1 || ttl >= 2
  {
    if max == 0 {
      assert Reaches(max, ttl, [], 0);
    } else if max == 1 {
      BurstAscends(max, ttl);
      BurstCounts(max, ttl, 0);
      assert Reaches(max, ttl, BurstTimes(max, ttl), 0);
    } else if ttl >= 2 {
      BurstAscends(max, ttl);
      BurstCounts(max, ttl, 2);
      assert Reaches(max, ttl, BurstTimes(max, ttl), 2);
    } else {
      forall times, from ensures !Reaches(max, ttl, times, from) {
        if Ascending(times) {
          OneInstant(times, max, from);
        }
      }
    }
  }

  // ---------------------------------------------------------------- Spam

  const MEMORY: nat := 86_400_000
  const REPEAT: nat := 60_000

  datatype Memo = Memo(rate: nat, repeats: nat, expiresAt: int)

  /** The keys of one chat and user. Text hashes are taken to be injective. */
  datatype Sender = Sender(rate: Option<Counter>, dups: map<string, Counter>, memos: map<int, Memo>)

  const NewSender: Sender := Sender(None, map[], map[])

  function DupOf(s: Sender, text: string): Option<Counter> {
    if text in s.dups then Some(s.dups[text]) else None
  }

  predicate Remembered(s: Sender, update: int, now: int) {
    update in s.memos && now <= s.memos[update].expiresAt
  }

  function Spam(s: Sender, now: int, update: int, text: string, window: nat): (Sender, (nat, nat)) {
    if Remembered(s, update, now) then (s, (s.memos[update].rate, s.memos[update].repeats))
    else
      var a := Bump(s.rate, now, window);
      var b := Bump(DupOf(s, text), now, REPEAT);
      (Sender(Some(a), s.dups[text := b], s.memos[update := Memo(a.n, b.n, now + MEMORY)]), (a.n, b.n))
  }

  datatype Call = Call(now: int, update: int, text: string)

  function Serve(s: Sender, calls: seq<Call>, window: nat): Sender {
    if calls == [] then s
    else
      var c := calls[|calls| - 1];
      Spam(Serve(s, calls[..|calls| - 1], window), c.now, c.update, c.text, window).0
  }

  predicate CallsAscend(calls: seq<Call>) {
    forall i, j :: 0 <= i < j < |calls| ==> calls[i].now <= calls[j].now
  }

  /** The calls that count, from the call times alone: not a repetition, within a day, of an
      update that has counted. */
  predicate Repetition(counted: seq<Call>, c: Call) {
    exists j :: 0 <= j < |counted| && counted[j].update == c.update && c.now <= counted[j].now + MEMORY
  }

  function Counted(calls: seq<Call>): seq<Call> {
    if calls == [] then []
    else
      var (pre, c) := (Counted(calls[..|calls| - 1]), calls[|calls| - 1]);
      if Repetition(pre, c) then pre else pre + [c]
  }

  function OfText(calls: seq<Call>, text: string): seq<Call> {
    if calls == [] then []
    else
      var (pre, c) := (OfText(calls[..|calls| - 1], text), calls[|calls| - 1]);
      if c.text == text then pre + [c] else pre
  }

  function Times(calls: seq<Call>): seq<int> {
    seq(|calls|, i requires 0 <= i < |calls| => calls[i].now)
  }

  /** The calls of the window that the last one belongs to. */
  function Window(calls: seq<Call>, ttl: nat): seq<Call>
    requires calls != []
  {
    calls[Opener(Times(calls), ttl, |calls| - 1)..]
  }

  lemma TimesAdd(calls: seq<Call>, c: Call)
    ensures Times(calls + [c]) == Times(calls) + [c.now]
    ensures (Times(calls) + [c.now])[..|calls|] == Times(calls)
  {
  }

  lemma {:induction false} CountedIsSparse(calls: seq<Call>)
    requires CallsAscend(calls)
    ensures var cs := Counted(calls);
      && CallsAscend(cs) && |cs| <= |calls|
      && (cs != [] ==> cs[|cs| - 1].now <= calls[|calls| - 1].now)
      && (forall a, b :: 0 <= a < b < |cs| && cs[a].update == cs[b].update ==> cs[b].now > cs[a].now + MEMORY)
  {
    if calls != [] {
      var pre := calls[..|calls| - 1];
      CountedIsSparse(pre);
      var c := calls[|calls| - 1];
      if pre != [] {
        assert pre[|pre| - 1].now <= c.now;
      }
      assert Counted(pre) != [] ==> Counted(pre)[|Counted(pre)| - 1].now <= c.now;
    }
  }

  /** A subsequence: the positions of the selected calls. */
  ghost predicate Selects(calls: seq<Call>, ts: seq<Call>, text: string, at: seq<nat>) {
    && |at| == |ts|
    && (forall a :: 0 <= a < |at| ==> at[a] < |calls| && calls[at[a]] == ts[a] && ts[a].text == text)
    && (forall a, b :: 0 <= a < b < |at| ==> at[a] < at[b])
  }

  lemma {:induction false} OfTextSelects(calls: seq<Call>, text: string) returns (at: seq<nat>)
    ensures Selects(calls, OfText(calls, text), text, at)
  {
    at := [];
    if calls != [] {
      at := OfTextSelects(calls[..|calls| - 1], text);
      if calls[|calls| - 1].text == text {
        at := at + [|calls| - 1];
      }
    }
  }

  /** What the store holds after these calls, in terms of the calls that count. */
  ghost predicate Serves(s: Sender, cs: seq<Call>, window: nat) {
    && s.rate == After(Times(cs), window)
    && (forall text :: DupOf(s, text) == After(Times(OfText(cs, text)), REPEAT))
    && (forall u :: u in s.memos <==> exists j :: 0 <= j < |cs| && cs[j].update == u)
    && (forall u :: u in s.memos ==>
          && (forall j :: 0 <= j < |cs| && cs[j].update == u ==> cs[j].now + MEMORY <= s.memos[u].expiresAt)
          && exists j :: 0 <= j < |cs| && cs[j].update == u && cs[j].now + MEMORY == s.memos[u].expiresAt)
  }

  lemma RememberedIsRepetition(s: Sender, cs: seq<Call>, window: nat, c: Call)
    requires Serves(s, cs, window)
    ensures Remembered(s, c.update, c.now) <==> Repetition(cs, c)
  {
  }

  lemma ServesMore(s: Sender, cs: seq<Call>, window: nat, c: Call)
    requires Serves(s, cs, window) && !Remembered(s, c.update, c.now)
    requires forall j :: 0 <= j < |cs| ==> cs[j].now <= c.now
    ensures Serves(Spam(s, c.now, c.update, c.text, window).0, cs + [c], window)
  {
    var s' := Spam(s, c.now, c.update, c.text, window).0;
    var cs' := cs + [c];
    TimesAdd(cs, c);
    assert cs'[..|cs|] == cs;
    forall text ensures DupOf(s', text) == After(Times(OfText(cs', text)), REPEAT) {
      TimesAdd(OfText(cs, text), c);
    }
    ServesMemos(s, cs, window, c);
  }

  lemma ServesMemos(s: Sender, cs: seq<Call>, window: nat, c: Call)
    requires Serves(s, cs, window) && !Remembered(s, c.update, c.now)
    requires forall j :: 0 <= j < |cs| ==> cs[j].now <= c.now
    ensures var (s', cs') := (Spam(s, c.now, c.update, c.text, window).0, cs + [c]);
      && (forall u :: u in s'.memos <==> exists j :: 0 <= j < |cs'| && cs'[j].update == u)
      && (forall u :: u in s'.memos ==>
            && (forall j :: 0 <= j < |cs'| && cs'[j].update == u ==> cs'[j].now + MEMORY <= s'.memos[u].expiresAt)
            && exists j :: 0 <= j < |cs'| && cs'[j].update == u && cs'[j].now + MEMORY == s'.memos[u].expiresAt)
  {
    var (s', cs') := (Spam(s, c.now, c.update, c.text, window).0, cs + [c]);
    assert cs'[|cs|] == c;
    forall u ensures u in s'.memos <==> exists j :: 0 <= j < |cs'| && cs'[j].update == u {
      if u in s.memos {
        var j :| 0 <= j < |cs| && cs[j].update == u;
        assert cs'[j].update == u;
      }
    }
    forall u | u in s'.memos
      ensures exists j :: 0 <= j < |cs'| && cs'[j].update == u && cs'[j].now + MEMORY == s'.memos[u].expiresAt
    {
      if u != c.update {
        var j :| 0 <= j < |cs| && cs[j].update == u && cs[j].now + MEMORY == s.memos[u].expiresAt;
        assert cs'[j].update == u;
      }
    }
  }

  lemma {:induction false} ServedByCounted(calls: seq<Call>, window: nat)
    requires CallsAscend(calls)
    ensures Serves(Serve(NewSender, calls, window), Counted(calls), window)
  {
    if calls != [] {
      var (pre, c) := (calls[..|calls| - 1], calls[|calls| - 1]);
      ServedByCounted(pre, window);
      CountedIsSparse(pre);
      var s := Serve(NewSender, pre, window);
      RememberedIsRepetition(s, Counted(pre), window, c);
      if !Remembered(s, c.update, c.now) {
        if pre != [] {
          assert pre[|pre| - 1].now <= c.now;
        }
        ServesMore(s, Counted(pre), window, c);
      }
    }
  }

  /** In a window of at most a day no update counts twice. */
  lemma WindowIsDistinct(cs: seq<Call>, ttl: nat)
    requires cs != [] && ttl <= MEMORY && CallsAscend(cs)
    requires forall a, b :: 0 <= a < b < |cs| && cs[a].update == cs[b].update ==> cs[b].now > cs[a].now + MEMORY
    ensures var w := Window(cs, ttl);
      forall a, b :: 0 <= a < b < |w| ==> w[a].update != w[b].update
  {
    var o := Opener(Times(cs), ttl, |cs| - 1);
    AcceptsFirst(Times(cs), 0, ttl, |cs| - 1);
    forall a, b | 0 <= a < b < |cs| - o ensures cs[o..][a].update != cs[o..][b].update {
      assert cs[o].now <= cs[o + a].now && cs[o + b].now <= cs[|cs| - 1].now <= cs[o].now + ttl;
    }
  }

  /** The two numbers reported for an update that counts are the numbers of updates, all
      distinct, that have counted in the rate window and in the repeat window of its text;
      windows and memory are those of the call times alone. */
  lemma ReportsDistinctUpdates(calls: seq<Call>, window: nat)
    requires window <= MEMORY && CallsAscend(calls) && calls != []
    requires !Repetition(Counted(calls[..|calls| - 1]), calls[|calls| - 1])
    ensures var (c, cs) := (calls[|calls| - 1], Counted(calls));
      var same := OfText(cs, c.text);
      && cs != [] && same != []
      && (forall a, b :: 0 <= a < b < |Window(cs, window)| ==> Window(cs, window)[a].update != Window(cs, window)[b].update)
      && (forall a, b :: 0 <= a < b < |Window(same, REPEAT)| ==> Window(same, REPEAT)[a].update != Window(same, REPEAT)[b].update)
      && Spam(Serve(NewSender, calls[..|calls| - 1], window), c.now, c.update, c.text, window).1
           == (|Window(cs, window)|, |Window(same, REPEAT)|)
  {
    var (pre, c, cs) := (calls[..|calls| - 1], calls[|calls| - 1], Counted(calls));
    var same := OfText(cs, c.text);
    var s := Serve(NewSender, pre, window);
    ServedByCounted(pre, window);
    ServedByCounted(calls, window);
    RememberedIsRepetition(s, Counted(pre), window, c);
    CountedIsSparse(calls);
    assert cs[..|cs| - 1] == Counted(pre);
    WindowIsDistinct(cs, window);
    SameTextIsSparse(cs, c.text);
    WindowIsDistinct(same, REPEAT);
    WindowCounts(cs, window);
    WindowCounts(same, REPEAT);
  }

  lemma SameTextIsSparse(cs: seq<Call>, text: string)
    requires CallsAscend(cs)
    requires forall a, b :: 0 <= a < b < |cs| && cs[a].update == cs[b].update ==> cs[b].now > cs[a].now + MEMORY
    ensures var ts := OfText(cs, text);
      && CallsAscend(ts)
      && forall a, b :: 0 <= a < b < |ts| && ts[a].update == ts[b].update ==> ts[b].now > ts[a].now + MEMORY
  {
    var at := OfTextSelects(cs, text);
  }

  lemma WindowCounts(cs: seq<Call>, ttl: nat)
    requires cs != []
    ensures After(Times(cs), ttl).Some? && After(Times(cs), ttl).value.n == |Window(cs, ttl)|
  {
    AfterCounts(Times(cs), ttl, |cs| - 1);
    assert Times(cs)[..|cs|] == Times(cs);
  }

  lemma {:induction false} MemoryLasts(s: Sender, calls: seq<Call>, window: nat, update: int, until: int)
    requires update in s.memos && s.memos[update].expiresAt >= until
    requires forall i :: 0 <= i < |calls| ==> calls[i].now <= until
    ensures var s' := Serve(s, calls, window);
      update in s'.memos && s'.memos[update] == s.memos[update]
    decreases |calls|
  {
    if calls != [] {
      MemoryLasts(s, calls[..|calls| - 1], window, update, until);
    }
  }

  /** A retried update gets its first answer for a day and changes no counter, whatever else
      arrives in between. */
  lemma {:induction false} ReplayIsStable(s: Sender, first: Call, calls: seq<Call>, again: Call, window: nat)
    requires again.update == first.update && again.now <= first.now + MEMORY
    requires !Remembered(s, first.update, first.now)
    requires forall i :: 0 <= i < |calls| ==> calls[i].now <= again.now
    ensures var (s1, answer) := Spam(s, first.now, first.update, first.text, window);
      var s2 := Serve(s1, calls, window);
      Spam(s2, again.now, again.update, again.text, window) == (s2, answer)
  {
    var s1 := Spam(s, first.now, first.update, first.text, window).0;
    MemoryLasts(s1, calls, window, first.update, again.now);
  }

  // ---------------------------------------------------------------- locks

  datatype Lease = Lease(token: int, expiresAt: int)

  datatype LockEvent = Acquire(token: int, now: int, ttl: nat) | Release(token: int, now: int)

  predicate Held(l: Option<Lease>, now: int) {
    l.Some? && now <= l.value.expiresAt
  }

  /** SET NX PX, and the compare-and-delete script. */
  function LockStep(l: Option<Lease>, e: LockEvent): Option<Lease> {
    match e
    case Acquire(t, now, ttl) => if Held(l, now) then l else Some(Lease(t, now + ttl))
    case Release(t, now) => if Held(l, now) && l.value.token == t then None else l
  }

  predicate Acquires(l: Option<Lease>, e: LockEvent) {
    e.Acquire? && !Held(l, e.now)
  }

  function LockRun(l: Option<Lease>, es: seq<LockEvent>): Option<Lease>
    decreases |es|
  {
    if es == [] then l else LockRun(LockStep(l, es[0]), es[1..])
  }

  lemma {:induction false} LeaseLasts(l: Lease, es: seq<LockEvent>)
    requires forall e :: e in es ==> e.now <= l.expiresAt && (e.Release? ==> e.token != l.token)
    ensures LockRun(Some(l), es) == Some(l)
    decreases |es|
  {
    if es != [] {
      assert es[0] in es;
      LeaseLasts(l, es[1..]);
    }
  }

  /** Until its lease runs out or its own holder releases it, a lock cannot be acquired and
      no other holder's late release frees it. */
  lemma {:induction false} LockExcludes(before: Option<Lease>, mine: LockEvent, es: seq<LockEvent>, other: LockEvent)
    requires Acquires(before, mine)
    requires forall e :: e in es + [other] ==> e.now <= mine.now + mine.ttl && (e.Release? ==> e.token != mine.token)
    ensures var l := LockRun(LockStep(before, mine), es);
      !Acquires(l, other) && LockStep(l, other) == Some(Lease(mine.token, mine.now + mine.ttl))
  {
    forall e | e in es ensures e in es + [other] {
    }
    assert other in es + [other] by {
      assert (es + [other])[|es|] == other;
    }
    LeaseLasts(Lease(mine.token, mine.now + mine.ttl), es);
  }

  /** Once its holder releases it, or its lease is over, a lock can be acquired at once. */
  lemma {:induction false} ReleasedIsFree(before: Option<Lease>, mine: LockEvent, es: seq<LockEvent>, at: int, other: LockEvent)
    requires Acquires(before, mine) && other.Acquire?
    requires forall e :: e in es ==> e.now <= mine.now + mine.ttl && (e.Release? ==> e.token != mine.token)
    requires at <= mine.now + mine.ttl
    ensures var l := LockRun(LockStep(before, mine), es);
      && Acquires(LockStep(l, Release(mine.token, at)), other)
      && LockStep(LockStep(l, Release(mine.token, at)), other) == Some(Lease(other.token, other.now + other.ttl))
      && (other.now > mine.now + mine.ttl ==> Acquires(l, other))
  {
    LeaseLasts(Lease(mine.token, mine.now + mine.ttl), es);
  }

  // ---------------------------------------------------------------- the store itself

  class State {
    var counters: map<string, Counter>
    var senders: map<(int, int), Sender>
    var locks: map<string, Lease>

    constructor ()
      ensures counters == map[] && senders == map[] && locks == map[]
    {
      counters, senders, locks := map[], map[], map[];
    }

    function CounterOf(key: string): Option<Counter>
      reads this
    {
      if key in counters then Some(counters[key]) else None
    }

    function SenderOf(chat: int, user: int): Sender
      reads this
    {
      if (chat, user) in senders then senders[(chat, user)] else NewSender
    }

    function LeaseOf(key: string): Option<Lease>
      reads this
    {
      if key in locks then Some(locks[key]) else None
    }

    method Limit(key: string, max: nat, ttl: nat, now: int) returns (ok: bool)
      modifies this`counters
      ensures counters == old(counters)[key := Bump(old(CounterOf(key)), now, ttl)]
      ensures ok <==> counters[key].n <= max
    {
      var n := 1;
      if key in counters && now <= counters[key].expiresAt {
        n := counters[key].n + 1;
        counters := counters[key := counters[key].(n := n)];
      } else {
        counters := counters[key := Counter(1, now + ttl)];
      }
      ok := n <= max;
    }

    method CountSpam(chat: int, user: int, update: int, text: string, window: nat, now: int) returns (rate: nat, repeats: nat)
      modifies this`senders
      ensures var (s, answer) := Spam(old(SenderOf(chat, user)), now, update, text, window);
        (rate, repeats) == answer && SenderOf(chat, user) == s
        && forall k :: k in old(senders) && k != (chat, user) ==> k in senders && senders[k] == old(senders)[k]
    {
      var s := SenderOf(chat, user);
      if update in s.memos && now <= s.memos[update].expiresAt {
        return s.memos[update].rate, s.memos[update].repeats;
      }
      var a := Bump(s.rate, now, window);
      s := s.(rate := Some(a));
      var b := Bump(DupOf(s, text), now, REPEAT);
      s := s.(dups := s.dups[text := b]);
      s := s.(memos := s.memos[update := Memo(a.n, b.n, now + MEMORY)]);
      senders := senders[(chat, user) := s];
      rate, repeats := a.n, b.n;
    }

    method Lock(key: string, token: int, ttl: nat, now: int) returns (ok: bool)
      modifies this`locks
      ensures ok <==> Acquires(old(LeaseOf(key)), Acquire(token, now, ttl))
      ensures LeaseOf(key) == LockStep(old(LeaseOf(key)), Acquire(token, now, ttl))
      ensures forall k :: k != key ==> LeaseOf(k) == old(LeaseOf(k))
    {
      ok := !(key in locks && now <= locks[key].expiresAt);
      if ok {
        locks := locks[key := Lease(token, now + ttl)];
      }
    }

    method Unlock(key: string, token: int, now: int)
      modifies this`locks
      ensures LeaseOf(key) == LockStep(old(LeaseOf(key)), Release(token, now))
      ensures forall k :: k != key ==> LeaseOf(k) == old(LeaseOf(k))
    {
      if key in locks && now <= locks[key].expiresAt && locks[key].token == token {
        locks := locks - {key};
      }
    }
  }
}
