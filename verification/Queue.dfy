/** The durable inbox: `update_inbox` as a table keyed by update id. One statement or
    transaction is one event; workers, pollers and retention interleave freely. */
module Queue {
  import opened Domain

  datatype Status = Waiting | Processing | Handled | Dead

  datatype Item = Item(partition: int, status: Status, attempts: nat, availableAt: int, leaseUntil: int, compacted: bool)

  type Table = map<int, Item>

  predicate Live(x: Item) {
    x.status == Waiting || x.status == Processing
  }

  const LEASE: int := 90 * SECOND

  // ---------------------------------------------------------------- statements

  /** INSERT IGNORE. */
  function Enqueue(q: Table, id: int, partition: int, now: int): Table {
    if id in q then q else q[id := Item(partition, Waiting, 0, now, 0, false)]
  }

  predicate Ready(x: Item, now: int) {
    (x.status == Waiting && x.availableAt <= now) || (x.status == Processing && x.leaseUntil < now)
  }

  predicate Claimable(q: Table, id: int, now: int) {
    && id in q && Ready(q[id], now)
    && forall b :: b in q && q[b].partition == q[id].partition && b < id ==> !Live(q[b])
  }

  function Claim(q: Table, id: int, now: int): Table
    requires id in q
  {
    q[id := q[id].(status := Processing, attempts := q[id].attempts + 1, leaseUntil := now + LEASE)]
  }

  /** The UPDATE of Finish matches only the claim that is still current. */
  predicate Current(q: Table, id: int, attempts: nat) {
    id in q && q[id].attempts == attempts && q[id].status == Processing
  }

  function Finish(q: Table, id: int, attempts: nat, ok: bool, now: int): Table {
    if !Current(q, id, attempts) then q
    else if ok then q[id := q[id].(status := Handled, availableAt := now)]
    else q[id := q[id].(status := if attempts >= 5 then Dead else Waiting,
                        availableAt := now + attempts * attempts * SECOND)]
  }

  /** RetainData empties the payload of old finished rows; the row and its id stay. */
  function Retain(q: Table, ids: set<int>): Table {
    map id | id in q :: if id in ids && q[id].status == Handled then q[id].(compacted := true) else q[id]
  }

  /** RetryDead. */
  function Revive(q: Table, id: int, now: int): Table {
    if id in q && q[id].status == Dead
    then q[id := q[id].(status := Waiting, attempts := 0, availableAt := now)] else q
  }

  // ---------------------------------------------------------------- runs

  datatype Event =
    | Insert(id: int, partition: int, now: int)
    | Take(id: int, now: int)
    | Return(id: int, attempts: nat, ok: bool, now: int)
    | Compact(ids: set<int>)
    | Retry(id: int, now: int)

  /** Claim may take any claimable row: rows locked by a concurrent claim are skipped. */
  function Next(q: Table, e: Event): Table {
    match e
    case Insert(id, p, now) => Enqueue(q, id, p, now)
    case Take(id, now) => if Claimable(q, id, now) then Claim(q, id, now) else q
    case Return(id, a, ok, now) => Finish(q, id, a, ok, now)
    case Compact(ids) => Retain(q, ids)
    case Retry(id, now) => Revive(q, id, now)
  }

  function Exec(q: Table, es: seq<Event>): Table
    decreases |es|
  {
    if es == [] then q else Exec(Next(q, es[0]), es[1..])
  }

  /** New ids of a partition come in increasing order, and a dead row is revived only while
      no later row of its partition has been claimed. */
  ghost predicate InOrder(q: Table, e: Event) {
    && (e.Insert? && e.id !in q ==> forall b :: b in q && q[b].partition == e.partition ==> b < e.id)
    && (e.Retry? && e.id in q && q[e.id].status == Dead ==> LaterUntouched(q, e.id))
  }

  ghost predicate LaterUntouched(q: Table, id: int)
    requires id in q
  {
    forall b :: b in q && id < b && q[b].partition == q[id].partition ==> q[b].status == Waiting && q[b].attempts == 0
  }

  /** Nobody revives row id. */
  predicate Unrevived(es: seq<Event>, id: int) {
    forall i :: 0 <= i < |es| ==> !(es[i].Retry? && es[i].id == id)
  }

  ghost predicate AllInOrder(q: Table, es: seq<Event>)
    decreases |es|
  {
    es == [] || (InOrder(q, es[0]) && AllInOrder(Next(q, es[0]), es[1..]))
  }

  // ---------------------------------------------------------------- order within a partition

  /** While a row is live, every later row of its partition is untouched. */
  ghost predicate Ordered(q: Table) {
    forall a, b :: a in q && b in q && a < b && q[a].partition == q[b].partition && Live(q[a]) ==>
      q[b].status == Waiting && q[b].attempts == 0
  }

  lemma NextOrdered(q: Table, e: Event)
    requires Ordered(q) && InOrder(q, e)
    ensures Ordered(Next(q, e))
  {
  }

  lemma {:induction false} ExecOrdered(q: Table, es: seq<Event>)
    requires Ordered(q) && AllInOrder(q, es)
    ensures Ordered(Exec(q, es))
    decreases |es|
  {
    if es != [] {
      NextOrdered(q, es[0]);
      ExecOrdered(Next(q, es[0]), es[1..]);
    }
  }

  /** In every run from the empty table, a partition has at most one row in processing, it
      is the least live one, and a row is finished or dead only after all smaller ones. */
  lemma PartitionsAreSerial(es: seq<Event>, a: int, b: int)
    requires AllInOrder(map[], es)
    requires a in Exec(map[], es) && b in Exec(map[], es) && a < b
    requires Exec(map[], es)[a].partition == Exec(map[], es)[b].partition
    ensures var q := Exec(map[], es);
      && !(q[a].status == Processing && q[b].status == Processing)
      && (q[b].status == Processing || !Live(q[b]) ==> !Live(q[a]))
  {
    ExecOrdered(map[], es);
  }

  // ---------------------------------------------------------------- claims

  /** Without a revival attempts only grow, and what is finished or dead stays so. */
  predicate Grows(x: Item, x': Item) {
    && x'.partition == x.partition && x.attempts <= x'.attempts
    && (!Live(x) ==> x'.status == x.status && x'.attempts == x.attempts)
  }

  lemma NextGrows(q: Table, e: Event, id: int)
    requires id in q
    ensures id in Next(q, e) && Next(q, e)[id].partition == q[id].partition
    ensures q[id].status == Handled ==> Next(q, e)[id].status == Handled
    ensures !(e.Retry? && e.id == id) ==> Grows(q[id], Next(q, e)[id])
  {
  }

  lemma {:induction false} ExecGrows(q: Table, es: seq<Event>, id: int)
    requires id in q
    ensures id in Exec(q, es) && Exec(q, es)[id].partition == q[id].partition
    ensures q[id].status == Handled ==> Exec(q, es)[id].status == Handled
    ensures Unrevived(es, id) ==> Grows(q[id], Exec(q, es)[id])
    decreases |es|
  {
    if es != [] {
      NextGrows(q, es[0], id);
      ExecGrows(Next(q, es[0]), es[1..], id);
    }
  }

  /** A row once stored is never inserted again, whatever retention and revivals do. */
  lemma InsertedOnce(q: Table, es: seq<Event>, id: int, partition: int, now: int)
    requires id in q
    ensures Next(Exec(q, es), Insert(id, partition, now)) == Exec(q, es)
  {
    ExecGrows(q, es, id);
  }

  predicate Claims(q: Table, e: Event, id: int) {
    e.Take? && e.id == id && Claimable(q, id, e.now)
  }

  /** The job of a claim that was superseded by a later claim, or already returned, changes
      nothing when it is returned, however much later, unless the row was revived. */
  lemma SupersededReturnIsVoid(q: Table, first: Event, es: seq<Event>, second: Event, fs: seq<Event>, id: int, ok: bool, now: int)
    requires Claims(q, first, id) && Unrevived(es, id) && Unrevived(fs, id)
    requires var q1 := Exec(Next(q, first), es);
      Claims(q1, second, id) || (second.Return? && second.id == id && Current(q1, id, q[id].attempts + 1)
                                 && second.attempts == q[id].attempts + 1)
    ensures var q2 := Exec(Next(Exec(Next(q, first), es), second), fs);
      Next(q2, Return(id, q[id].attempts + 1, ok, now)) == q2
  {
    var n := q[id].attempts + 1;
    var q1 := Exec(Next(q, first), es);
    ExecGrows(Next(q, first), es, id);
    var q1' := Next(q1, second);
    if second.Take? {
      ExecGrows(q1', fs, id);
    } else {
      ReturnedStaysReturned(q1', fs, id, n);
    }
  }

  lemma {:induction false} ReturnedStaysReturned(q: Table, es: seq<Event>, id: int, n: nat)
    requires id in q && q[id].attempts >= n && !Current(q, id, n) && Unrevived(es, id)
    ensures id in Exec(q, es) && Exec(q, es)[id].attempts >= n && !Current(Exec(q, es), id, n)
    decreases |es|
  {
    if es != [] {
      ReturnedStaysReturned(Next(q, es[0]), es[1..], id, n);
    }
  }

  // ---------------------------------------------------------------- leases

  /** A waiting row whose time has come, or one in processing whose lease is over, once every
      smaller row of the partition is finished or dead. */
  ghost predicate Due(q: Table, id: int, now: int) {
    && id in q
    && ((q[id].status == Waiting && q[id].availableAt <= now) || (q[id].status == Processing && q[id].leaseUntil < now))
    && forall b :: b in q && b < id && q[b].partition == q[id].partition ==> q[b].status == Handled || q[b].status == Dead
  }

  /** A claim takes effect on exactly the due rows, and what it then does. */
  lemma TakeTakesIff(q: Table, id: int, now: int)
    ensures Claimable(q, id, now) == Due(q, id, now) == (Next(q, Take(id, now)) != q)
    ensures Next(q, Take(id, now)) != q ==>
      Next(q, Take(id, now)) == q[id := q[id].(status := Processing, attempts := q[id].attempts + 1, leaseUntil := now + 90 * SECOND)]
  {
    if Claimable(q, id, now) {
      assert Claim(q, id, now)[id].attempts != q[id].attempts;
    }
  }

  /** No row is claimed after this time. */
  predicate TakesBy(es: seq<Event>, time: int) {
    forall i :: 0 <= i < |es| && es[i].Take? ==> es[i].now <= time
  }

  /** The n-th claim of row id is not returned. */
  predicate Unreturned(es: seq<Event>, id: int, n: nat) {
    forall i :: 0 <= i < |es| && es[i].Return? && es[i].id == id ==> es[i].attempts != n
  }

  lemma {:induction false} LeaseHolds(q: Table, es: seq<Event>, id: int)
    requires id in q && q[id].status == Processing
    requires TakesBy(es, q[id].leaseUntil) && Unreturned(es, id, q[id].attempts)
    ensures var q' := Exec(q, es);
      id in q' && q'[id].status == Processing && q'[id].attempts == q[id].attempts && q'[id].leaseUntil == q[id].leaseUntil
      && q'[id].partition == q[id].partition
    decreases |es|
  {
    if es != [] {
      LeaseHolds(Next(q, es[0]), es[1..], id);
    }
  }

  /** For 90 seconds after a claim, and until it is returned, nobody claims that row or a
      later one of its partition, whatever else happens. */
  lemma LeaseExcludes(q: Table, id: int, t: int, es: seq<Event>, x: int, now: int)
    requires id in q && Next(q, Take(id, t)) != q
    requires TakesBy(es, t + 90 * SECOND) && Unreturned(es, id, q[id].attempts + 1) && now <= t + 90 * SECOND
    requires var u := Exec(Next(q, Take(id, t)), es); id <= x && x in u && u[x].partition == q[id].partition
    ensures var u := Exec(Next(q, Take(id, t)), es); Next(u, Take(x, now)) == u
  {
    hide Next, Exec, Claimable;
    TakeTakesIff(q, id, t);
    LeaseHolds(Next(q, Take(id, t)), es, id);
    TakeTakesIff(Exec(Next(q, Take(id, t)), es), x, now);
  }

  /** A claim that is not returned is taken over by the first later attempt that finds the row
      first in its partition. */
  lemma LeaseRunsOut(q: Table, id: int, t: int, es: seq<Event>, now: int)
    requires id in q && Next(q, Take(id, t)) != q
    requires TakesBy(es, t + 90 * SECOND) && Unreturned(es, id, q[id].attempts + 1) && now > t + 90 * SECOND
    requires var u := Exec(Next(q, Take(id, t)), es);
      forall b :: b in u && b < id && u[b].partition == q[id].partition ==> u[b].status == Handled || u[b].status == Dead
    ensures var u := Exec(Next(q, Take(id, t)), es);
      id in u && var u' := Next(u, Take(id, now));
      id in u' && u'[id].status == Processing && u'[id].attempts == q[id].attempts + 2 && u'[id].leaseUntil == now + 90 * SECOND
  {
    hide Next, Exec, Claimable;
    TakeTakesIff(q, id, t);
    LeaseHolds(Next(q, Take(id, t)), es, id);
    TakeTakesIff(Exec(Next(q, Take(id, t)), es), id, now);
  }

  lemma {:induction false} Waits(q: Table, es: seq<Event>, id: int, time: int)
    requires id in q && q[id].status == Waiting && time < q[id].availableAt && TakesBy(es, time)
    ensures id in Exec(q, es) && Exec(q, es)[id] == q[id]
    decreases |es|
  {
    if es != [] {
      Waits(Next(q, es[0]), es[1..], id, time);
    }
  }

  /** After its n-th claim failed, a row is left alone for n * n seconds, and later rows of
      its partition wait for it; after the fifth it is dead. */
  lemma FailureBacksOff(q: Table, id: int, n: nat, t: int, es: seq<Event>, x: int, now: int)
    requires id in q && q[id].status == Processing && q[id].attempts == n
    requires TakesBy(es, now) && now < t + n * n * SECOND
    ensures var q1 := Next(q, Return(id, n, false, t));
      && (n >= 5 ==> q1 == q[id := q[id].(status := Dead, availableAt := q1[id].availableAt)])
      && (n < 5 && id <= x && x in Exec(q1, es) && Exec(q1, es)[x].partition == q[id].partition ==>
            Next(Exec(q1, es), Take(x, now)) == Exec(q1, es))
  {
    var q1 := Next(q, Return(id, n, false, t));
    if n < 5 {
      Waits(q1, es, id, now);
      TakeTakesIff(Exec(q1, es), x, now);
    }
  }

  /** A claim returned with success is handled for good. */
  lemma SuccessIsFinal(q: Table, id: int, n: nat, t: int, es: seq<Event>)
    requires id in q && q[id].status == Processing && q[id].attempts == n
    ensures var u := Exec(Next(q, Return(id, n, true, t)), es); id in u && u[id].status == Handled
  {
    ExecGrows(Next(q, Return(id, n, true, t)), es, id);
  }

  // ---------------------------------------------------------------- failures

  /** An effective failing Finish. */
  predicate Fails(q: Table, e: Event, id: int) {
    e.Return? && e.id == id && !e.ok && Current(q, id, e.attempts)
  }

  function Failures(q: Table, es: seq<Event>, id: int): nat
    decreases |es|
  {
    if es == [] then 0
    else (if Fails(q, es[0], id) then 1 else 0) + Failures(Next(q, es[0]), es[1..], id)
  }

  /** How many failing returns a row can still take. */
  function Budget(q: Table, id: int): nat {
    if id !in q then 5
    else match q[id].status
      case Waiting => if q[id].attempts >= 5 then 1 else 5 - q[id].attempts
      case Processing => if q[id].attempts >= 5 then 1 else 6 - q[id].attempts
      case _ => 0
  }

  ghost predicate Tried(q: Table) {
    forall id :: id in q ==> (q[id].status == Waiting ==> q[id].attempts <= 4)
                             && (q[id].status == Processing ==> q[id].attempts >= 1)
  }

  /** The revivals of row id that take effect. */
  function Revivals(q: Table, es: seq<Event>, id: int): nat
    decreases |es|
  {
    if es == [] then 0
    else (if es[0].Retry? && es[0].id == id && id in q && q[id].status == Dead then 1 else 0)
         + Revivals(Next(q, es[0]), es[1..], id)
  }

  lemma {:induction false} FailuresBounded(q: Table, es: seq<Event>, id: int)
    requires Tried(q)
    ensures Tried(Exec(q, es))
    ensures Failures(q, es, id) + Budget(Exec(q, es), id) <= Budget(q, id) + 5 * Revivals(q, es, id)
    ensures Failures(q, es, id) > 0 && Failures(q, es, id) == Budget(q, id) + 5 * Revivals(q, es, id) ==>
      id in Exec(q, es) && Exec(q, es)[id].status == Dead
    decreases |es|
  {
    if es != [] {
      var q1 := Next(q, es[0]);
      FailuresBounded(q1, es[1..], id);
      if Fails(q, es[0], id) && Failures(q1, es[1..], id) == 0 && Budget(q, id) == 1 && Revivals(q1, es[1..], id) == 0 {
        DeadStays(q1, es[1..], id);
      }
    }
  }

  lemma {:induction false} DeadStays(q: Table, es: seq<Event>, id: int)
    requires id in q && q[id].status == Dead && Revivals(q, es, id) == 0
    ensures id in Exec(q, es) && Exec(q, es)[id].status == Dead
    decreases |es|
  {
    if es != [] {
      DeadStays(Next(q, es[0]), es[1..], id);
    }
  }

  /** At most five failing returns of an update take effect for each life of it, and the last
      of these makes it dead; claims lost to a crash can only make that happen earlier. */
  lemma FifthFailureKills(es: seq<Event>, id: int)
    ensures Failures(map[], es, id) <= 5 + 5 * Revivals(map[], es, id)
    ensures Failures(map[], es, id) == 5 + 5 * Revivals(map[], es, id) ==>
      id in Exec(map[], es) && Exec(map[], es)[id].status == Dead
  {
    FailuresBounded(map[], es, id);
  }

  // ---------------------------------------------------------------- reviving a dead row

  /** Reviving keeps the order of the partition exactly when no later row of it has been
      claimed yet. */
  lemma ReviveKeepsOrderIff(q: Table, id: int, now: int)
    requires Ordered(q) && id in q && q[id].status == Dead
    ensures Ordered(Revive(q, id, now)) <==> LaterUntouched(q, id)
  {
    var q' := Revive(q, id, now);
    if Ordered(q') {
      forall b | b in q && id < b && q[b].partition == q[id].partition
        ensures q[b].status == Waiting && q[b].attempts == 0
      {
        assert q'[b] == q[b] && Live(q'[id]);
      }
    }
  }

  lemma {:induction false} ExecConcat(q: Table, es: seq<Event>, fs: seq<Event>)
    ensures Exec(q, es + fs) == Exec(Exec(q, es), fs)
    decreases |es|
  {
    if es == [] {
      assert es + fs == fs;
    } else {
      assert (es + fs)[1..] == es[1..] + fs;
      ExecConcat(Next(q, es[0]), es[1..], fs);
    }
  }

  lemma ExecOne(q: Table, e: Event)
    ensures Exec(q, [e]) == Next(q, e)
  {
    assert Exec(Next(q, e), []) == Next(q, e);
  }

  /** No smaller row of the partition is live. */
  ghost predicate First(q: Table, id: int)
    requires id in q
  {
    forall b :: b in q && q[b].partition == q[id].partition && b < id ==> !Live(q[b])
  }

  /** Only row id differs, in its own fields. */
  ghost predicate OnlyRow(q: Table, q': Table, id: int) {
    && q'.Keys == q.Keys && (forall b :: b in q && b != id ==> q'[b] == q[b])
    && (id in q ==> q'[id].partition == q[id].partition)
  }

  lemma OnlyRowTwice(q: Table, q1: Table, q2: Table, id: int)
    requires OnlyRow(q, q1, id) && OnlyRow(q1, q2, id)
    ensures OnlyRow(q, q2, id)
  {
  }

  lemma StaysFirst(q: Table, q': Table, id: int)
    requires id in q && First(q, id) && OnlyRow(q, q', id)
    ensures First(q', id)
  {
    forall b | b in q' && q'[b].partition == q'[id].partition && b < id ensures !Live(q'[b]) {
      assert q'[b] == q[b];
    }
  }

  /** A claim of the first live row that is ready. */
  lemma Taken(q: Table, id: int, now: int) returns (q': Table)
    requires id in q && First(q, id) && Ready(q[id], now)
    ensures q' == Next(q, Take(id, now)) == Exec(q, [Take(id, now)]) && OnlyRow(q, q', id) && First(q', id)
    ensures q'[id] == q[id].(status := Processing, attempts := q[id].attempts + 1, leaseUntil := now + LEASE)
  {
    q' := Next(q, Take(id, now));
    ExecOne(q, Take(id, now));
    StaysFirst(q, q', id);
  }

  /** Claims whose workers die: one expired lease after the other, the row can be claimed up to
      any number. */
  lemma {:induction false} ClaimedUpTo(q: Table, id: int, n: nat) returns (es: seq<Event>)
    requires id in q && First(q, id) && Live(q[id]) && q[id].attempts < n
    ensures Current(Exec(q, es), id, n) && OnlyRow(q, Exec(q, es), id) && Unrevived(es, id)
    decreases n - q[id].attempts
  {
    var now := if q[id].status == Waiting then q[id].availableAt else q[id].leaseUntil + 1;
    var q1 := Taken(q, id, now);
    es := [Take(id, now)];
    if q[id].attempts + 1 < n {
      var fs := ClaimedUpTo(q1, id, n);
      ExecConcat(q, es, fs);
      OnlyRowTwice(q, q1, Exec(q1, fs), id);
      es := es + fs;
    }
  }

  /** Failing returns until the row is dead. */
  lemma {:induction false} Killed(q: Table, id: int) returns (es: seq<Event>)
    requires id in q && First(q, id) && Live(q[id])
    ensures id in Exec(q, es) && Exec(q, es)[id].status == Dead && OnlyRow(q, Exec(q, es), id)
    decreases if q[id].attempts < 5 then 5 - q[id].attempts else 0, q[id].status == Processing
  {
    if q[id].status == Waiting {
      var q1 := Taken(q, id, q[id].availableAt);
      var fs := KilledNow(q1, id);
      es := [Take(id, q[id].availableAt)] + fs;
      ExecConcat(q, [Take(id, q[id].availableAt)], fs);
      var q2 := Exec(q1, fs);
      OnlyRowTwice(q, q1, q2, id);
      if q2[id].status != Dead {
        StaysFirst(q, q2, id);
        var gs := Killed(q2, id);
        ExecConcat(q, es, gs);
        OnlyRowTwice(q, q2, Exec(q2, gs), id);
        es := es + gs;
      }
    } else {
      es := KilledNow(q, id);
      var q2 := Exec(q, es);
      if q2[id].status != Dead {
        StaysFirst(q, q2, id);
        var gs := Killed(q2, id);
        ExecConcat(q, es, gs);
        OnlyRowTwice(q, q2, Exec(q2, gs), id);
        es := es + gs;
      }
    }
  }

  /** One failing return. */
  lemma KilledNow(q: Table, id: int) returns (es: seq<Event>)
    requires id in q && q[id].status == Processing
    ensures id in Exec(q, es) && OnlyRow(q, Exec(q, es), id) && Exec(q, es)[id].attempts == q[id].attempts
    ensures Exec(q, es)[id].status == if q[id].attempts >= 5 then Dead else Waiting
  {
    es := [Return(id, q[id].attempts, false, 0)];
    ExecOne(q, es[0]);
  }

  ghost function LiveBefore(q: Table, id: int): set<int>
    requires id in q
  {
    set b | b in q && q[b].partition == q[id].partition && b < id && Live(q[b])
  }

  lemma {:induction false} LeastOf(ids: set<int>) returns (m: int)
    requires ids != {}
    ensures m in ids && forall x :: x in ids ==> m <= x
    decreases ids
  {
    assert (forall x :: x !in ids) ==> ids == {};
    var m0 :| m0 in ids;
    m := m0;
    if exists x :: x in ids && x < m0 {
      var x :| x in ids && x < m0;
      var rest := ids - {m0};
      assert x in rest;
      m := LeastOf(rest);
      forall y | y in ids ensures m <= y {
        assert y == m0 || y in rest;
      }
    }
  }

  /** The smaller live rows of the partition can all be handled, one by one. */
  lemma {:induction false} Cleared(q: Table, id: int) returns (es: seq<Event>)
    requires id in q
    ensures id in Exec(q, es) && Exec(q, es)[id] == q[id] && First(Exec(q, es), id)
    decreases |LiveBefore(q, id)|
  {
    es := [];
    if LiveBefore(q, id) == {} {
      forall b | b in q && q[b].partition == q[id].partition && b < id ensures !Live(q[b]) {
        assert b !in LiveBefore(q, id);
      }
    } else {
      var b := LeastOf(LiveBefore(q, id));
      var fs := HandledNow(q, id, b);
      var q1 := Exec(q, fs);
      assert LiveBefore(q1, id) == LiveBefore(q, id) - {b};
      var gs := Cleared(q1, id);
      ExecConcat(q, fs, gs);
      es := fs + gs;
    }
  }

  lemma HandledNow(q: Table, id: int, b: int) returns (es: seq<Event>)
    requires id in q && b in LiveBefore(q, id) && forall x :: x in LiveBefore(q, id) ==> b <= x
    ensures OnlyRow(q, Exec(q, es), b) && b in Exec(q, es) && Exec(q, es)[b].status == Handled
  {
    forall x | x in q && q[x].partition == q[b].partition && x < b ensures !Live(q[x]) {
      assert x !in LiveBefore(q, id);
    }
    es := [];
    var q1 := q;
    if q[b].status == Waiting {
      q1 := Taken(q, b, q[b].availableAt);
      es := [Take(b, q[b].availableAt)];
    }
    var done := Return(b, q1[b].attempts, true, 0);
    ExecOne(q1, done);
    ExecConcat(q, es, [done]);
    es := es + [done];
  }

  /** From a dead row that is the first of its partition: revived, and claimed up to n. */
  lemma RevivedUpTo(q: Table, id: int, n: nat) returns (es: seq<Event>)
    requires id in q && First(q, id) && q[id].status == Dead && n >= 1
    ensures Current(Exec(q, es), id, n)
  {
    var q1 := Next(q, Retry(id, 0));
    ExecOne(q, Retry(id, 0));
    StaysFirst(q, q1, id);
    var fs := ClaimedUpTo(q1, id, n);
    ExecConcat(q, [Retry(id, 0)], fs);
    es := [Retry(id, 0)] + fs;
  }

  predicate Regains(q: Table, es: seq<Event>, id: int, n: nat) {
    Current(Exec(q, es), id, n)
  }

  /** Exactly when a claim that is no longer current can become current again: while nobody
      revives the row it cannot, whatever happens; but unless the row has been handled, some
      continuation with a revival gives its number to a new claim. */
  lemma StaleClaimIff(q: Table, id: int, n: nat)
    requires id in q && 1 <= n <= q[id].attempts && !Current(q, id, n)
    ensures forall es :: Unrevived(es, id) ==> !Regains(q, es, id, n)
    ensures (exists es :: Regains(q, es, id, n)) <==> q[id].status != Handled
  {
    forall es | Unrevived(es, id) ensures !Regains(q, es, id, n) {
      ReturnedStaysReturned(q, es, id, n);
    }
    if q[id].status == Handled {
      forall es ensures !Regains(q, es, id, n) {
        ExecGrows(q, es, id);
      }
    } else {
      var es := StaleClaimRuns(q, id, n);
      assert Regains(q, es, id, n);
    }
  }

  lemma StaleClaimRuns(q: Table, id: int, n: nat) returns (es: seq<Event>)
    requires id in q && n >= 1 && q[id].status != Handled
    ensures Current(Exec(q, es), id, n)
  {
    var fs := Cleared(q, id);
    var q1 := Exec(q, fs);
    if Live(q1[id]) {
      var ks := Killed(q1, id);
      StaysFirst(q1, Exec(q1, ks), id);
      ExecConcat(q, fs, ks);
      fs := fs + ks;
    }
    var gs := RevivedUpTo(Exec(q, fs), id, n);
    ExecConcat(q, fs, gs);
    es := fs + gs;
  }

  /** A run of a single update from the empty table: its first claim is superseded, it dies and
      is revived, and the return of that first claim takes effect. */
  lemma StaleReturnTakesEffect(id: int, partition: int) returns (es: seq<Event>, fs: seq<Event>)
    ensures |es| >= 2
    ensures var q := Exec(map[], es);
      && Claims(Exec(map[], es[..1]), Take(id, 0), id) && es[1..2] == [Take(id, 0)]  // claim 1
      && id in q && q[id].attempts == 2 && !Current(q, id, 1)                        // superseded
      && Exec(map[], es + fs) == Exec(q, fs) && Revivals(q, fs, id) > 0
      && Current(Exec(q, fs), id, 1)
      && Next(Exec(q, fs), Return(id, 1, true, 0))[id].status == Handled
  {
    es := [Insert(id, partition, 0), Take(id, 0), Take(id, LEASE + 1)];
    var q1 := Enqueue(map[], id, partition, 0);
    var q2 := Next(q1, Take(id, 0));
    var q3 := Next(q2, Take(id, LEASE + 1));
    ExecOne(map[], es[0]);
    assert es[..1] == [es[0]];
    assert es[1..] == [es[1], es[2]] && es[1..][1..] == [es[2]] && es[1..2] == [es[1]];
    ExecOne(q2, es[2]);
    assert Exec(map[], es) == Exec(q1, es[1..]) == Exec(q2, [es[2]]) == q3;
    fs := StaleClaimRuns(q3, id, 1);
    ExecConcat(map[], es, fs);
    if Revivals(q3, fs, id) == 0 {
      WithoutRevival(q3, fs, id, 1);
    }
  }

  lemma {:induction false} WithoutRevival(q: Table, es: seq<Event>, id: int, n: nat)
    requires id in q && q[id].attempts >= n && !Current(q, id, n) && Revivals(q, es, id) == 0
    ensures !Current(Exec(q, es), id, n)
    decreases |es|
  {
    if es != [] {
      WithoutRevival(Next(q, es[0]), es[1..], id, n);
    }
  }
}
