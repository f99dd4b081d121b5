/** The inbox as the bot uses it: rows updated in place, the stored poll offset, and
    the polling loop against Telegram's getUpdates. */
module Inbox {
  import opened Domain
  import opened Queue

  datatype Update = Update(id: int, partition: int)

  class Inbox {
    var items: Table
    var offset: Option<int>          // bot_state.poll_offset
    ghost var inserted: seq<int>     // ids that Enqueue really inserted, in order

    constructor ()
      ensures items == map[] && offset == None && inserted == []
    {
      items, offset, inserted := map[], None, [];
    }

    method Enqueue(u: Update, now: int)
      modifies this`items, this`inserted
      ensures items == Queue.Enqueue(old(items), u.id, u.partition, now)
      ensures inserted == if u.id in old(items) then old(inserted) else old(inserted) + [u.id]
    {
      if u.id !in items {
        items := items[u.id := Item(u.partition, Waiting, 0, now, 0, false)];
        inserted := inserted + [u.id];
      }
    }

    method LoadOffset() returns (n: int)
      ensures n == if offset.Some? then offset.value else 0
    {
      n := match offset case Some(v) => v case None => 0;
    }

    method SaveOffset(n: int)
      modifies this`offset
      ensures offset == Some(n)
    {
      offset := Some(n);
    }

    /** Rows in `locked` are held by concurrent claims and skipped. The job carries the
        number of its claim. */
    method Claim(now: int, locked: set<int>) returns (job: Option<(int, nat)>)
      modifies this`items
      ensures job.None? ==> items == old(items) && forall id :: Due(old(items), id, now) ==> id in locked
      ensures job.Some? ==>
        && Due(old(items), job.value.0, now) && job.value.0 !in locked
        && (forall id :: Due(old(items), id, now) && id !in locked ==> job.value.0 <= id)
        && items == Queue.Next(old(items), Take(job.value.0, now))
        && Current(items, job.value.0, job.value.1)
    {
      forall id ensures Due(items, id, now) == Claimable(items, id, now) {
        TakeTakesIff(items, id, now);
      }
      var ready := set id | id in items && id !in locked && Ready(items[id], now)
                            && (forall b | b in items :: items[b].partition == items[id].partition && b < id ==> !Live(items[b]));
      if ready == {} {
        forall id | Claimable(items, id, now) ensures id in locked {
          assert id !in ready;
        }
        return None;
      }
      var id := Least(ready);
      items := items[id := items[id].(status := Processing, attempts := items[id].attempts + 1, leaseUntil := now + LEASE)];
      job := Some((id, items[id].attempts));
      forall j | Claimable(old(items), j, now) && j !in locked ensures id <= j {
        assert j in ready;
      }
    }

    method Finish(id: int, attempts: nat, ok: bool, now: int)
      modifies this`items
      ensures items == Queue.Finish(old(items), id, attempts, ok, now)
    {
      var status := Handled;
      var next := now;
      if !ok {
        status := Waiting;
        next := now + attempts * attempts * SECOND;
        if attempts >= 5 {
          status := Dead;
        }
      }
      if id in items && items[id].attempts == attempts && items[id].status == Processing {
        items := items[id := items[id].(status := status, availableAt := next)];
      }
    }

    method RetryDead(id: int, now: int) returns (found: bool)
      modifies this`items
      ensures found <==> id in old(items) && old(items)[id].status == Dead
      ensures items == Queue.Revive(old(items), id, now)
    {
      found := id in items && items[id].status == Dead;
      if found {
        items := items[id := items[id].(status := Waiting, attempts := 0, availableAt := now)];
      }
    }
  }

  lemma NonEmpty(ids: set<int>)
    requires ids != {}
    ensures exists x :: x in ids
  {
    assert (forall x :: x !in ids) ==> ids == {};
  }

  /** ORDER BY update_id LIMIT 1. */
  method Least(ids: set<int>) returns (m: int)
    requires ids != {}
    ensures m in ids && forall id :: id in ids ==> m <= id
  {
    NonEmpty(ids);
    m :| m in ids;
    var rest := ids - {m};
    while rest != {}
      invariant rest <= ids && m in ids
      invariant forall id :: id in ids && id !in rest ==> m <= id
      decreases rest
    {
      NonEmpty(rest);
      var x :| x in rest;
      rest := rest - {x};
      if x < m {
        m := x;
      }
    }
  }

  // ---------------------------------------------------------------- Telegram's side

  /** All updates the bot will ever be sent, in the order of their strictly growing ids;
      `arrived` of them exist so far. A getUpdates call with an offset makes Telegram
      forget everything below it for good. */
  class Server {
    const log: seq<Update>
    var arrived: nat
    var forgotten: int

    ghost predicate Valid()
      reads this
    {
      arrived <= |log| && forall i, j :: 0 <= i < j < |log| ==> log[i].id < log[j].id
    }

    constructor (log: seq<Update>)
      requires forall i, j :: 0 <= i < j < |log| ==> log[i].id < log[j].id
      ensures Valid() && this.log == log && arrived == 0 && forgotten == 0
    {
      this.log, arrived, forgotten := log, 0, 0;
    }

    method Receive(n: nat)
      requires Valid()
      modifies this`arrived
      ensures Valid() && old(arrived) <= arrived
    {
      arrived := if arrived + n <= |log| then arrived + n else |log|;
    }

    /** At most 100 of the oldest updates that are neither forgotten nor below the offset. */
    method GetUpdates(offset: int) returns (first: nat, updates: seq<Update>)
      requires Valid()
      modifies this`forgotten
      ensures Valid() && forgotten == if offset > old(forgotten) then offset else old(forgotten)
      ensures |updates| <= 100 && first + |updates| <= arrived && updates == log[first..first + |updates|]
      ensures forall i :: 0 <= i < first ==> log[i].id < forgotten
      ensures first < arrived ==> forgotten <= log[first].id
      ensures first + |updates| == arrived || |updates| == 100
      ensures updates != [] ==> offset <= updates[0].id
    {
      if offset > forgotten {
        forgotten := offset;
      }
      first := 0;
      while first < arrived && log[first].id < forgotten
        invariant first <= arrived
        invariant forall i :: 0 <= i < first ==> log[i].id < forgotten
      {
        first := first + 1;
      }
      var last := if first + 100 <= arrived then first + 100 else arrived;
      updates := log[first..last];
    }
  }

  // ---------------------------------------------------------------- polling

  /** The id after the first n updates: what a poller that has stored them asks for. */
  ghost function Mark(log: seq<Update>, n: nat): int
    requires n <= |log|
  {
    if n == 0 then 0 else log[n - 1].id + 1
  }

  /** The inbox holds exactly the first n updates, each inserted once and in order, and
      neither the stored offset nor what Telegram has forgotten goes beyond them. */
  ghost predicate Durable(inbox: Inbox, server: Server, n: nat)
    reads inbox, server
  {
    && server.Valid() && n <= server.arrived
    && (forall i :: 0 <= i < |server.log| ==> 0 <= server.log[i].id)
    && inbox.inserted == seq(n, i requires 0 <= i < n => server.log[i].id)
    && (forall id :: id in inbox.items <==> id in inbox.inserted)
    && (inbox.offset.Some? ==> inbox.offset.value <= Mark(server.log, n))
    && server.forgotten <= Mark(server.log, n)
  }

  /** Durable says what it should: nothing that Telegram has forgotten, or will forget when
      asked with the stored offset, is missing, and nothing was inserted twice. */
  lemma NothingIsLost(inbox: Inbox, server: Server, n: nat, i: nat)
    requires Durable(inbox, server, n) && i < server.arrived
    requires server.log[i].id < server.forgotten || (inbox.offset.Some? && server.log[i].id < inbox.offset.value)
    ensures server.log[i].id in inbox.items
    ensures forall a, b :: 0 <= a < b < |inbox.inserted| ==> inbox.inserted[a] < inbox.inserted[b]
  {
    assert i < n;
    assert inbox.inserted[i] == server.log[i].id;
  }

  /** Rows are inserted in the order that the queue relies on. */
  lemma InsertsAreInOrder(inbox: Inbox, server: Server, n: nat, now: int)
    requires Durable(inbox, server, n) && n < |server.log|
    ensures server.log[n].id !in inbox.items
    ensures InOrder(inbox.items, Insert(server.log[n].id, server.log[n].partition, now))
  {
  }

  /** One round of the loop: what has arrived before it, whether the call reached Telegram
      and whether its answer came back, and how many of the following statements succeed
      before one fails or the process dies. */
  datatype Round = Round(arrivals: nat, reached: bool, answered: bool, statements: nat, now: int)

  lemma MarkIsMonotone(server: Server, m: nat, n: nat)
    requires server.Valid() && m <= n <= |server.log|
    requires forall i :: 0 <= i < |server.log| ==> 0 <= server.log[i].id
    ensures Mark(server.log, m) <= Mark(server.log, n)
  {
  }

  /** What Telegram has forgotten is at most what is stored. */
  lemma FirstIsStored(server: Server, first: nat, n: nat)
    requires server.Valid() && n <= |server.log| && first <= |server.log|
    requires forall i :: 0 <= i < |server.log| ==> 0 <= server.log[i].id
    requires server.forgotten <= Mark(server.log, n)
    requires forall i :: 0 <= i < first ==> server.log[i].id < server.forgotten
    ensures first <= n
  {
    assert forall i :: n <= i < |server.log| ==> Mark(server.log, n) <= server.log[i].id;
    var next := if n < |server.log| then server.log[n].id else server.forgotten;
  }

  /** One update of the batch, new or delivered before. */
  method KeepUpdate(inbox: Inbox, server: Server, u: Update, now: int, ghost index: nat, ghost n: nat) returns (ghost n': nat)
    requires Durable(inbox, server, n) && index <= n && index < server.arrived && u == server.log[index]
    modifies inbox`items, inbox`inserted
    ensures n <= n' && index < n' && Durable(inbox, server, n') && u.id + 1 <= Mark(server.log, n')
  {
    n' := n;
    if index == n {
      InsertsAreInOrder(inbox, server, n, now);
      n' := n + 1;
    } else {
      assert inbox.inserted[index] == u.id;
    }
    inbox.Enqueue(u, now);
    MarkIsMonotone(server, index + 1, n');
  }

  /** The 100 oldest updates that had arrived and were not forgotten are stored, and the next
      request asks for what comes after them. */
  ghost predicate Caught(inbox: Inbox, server: Server, offset: int, first: nat)
    reads inbox, server
    requires server.Valid()
  {
    && first <= server.arrived
    && (forall i :: 0 <= i < first ==> server.log[i].id < server.forgotten)
    && (first < server.arrived ==> server.forgotten <= server.log[first].id)
    && (forall i :: first <= i < server.arrived && i < first + 100 ==>
          server.log[i].id in inbox.items && server.log[i].id < offset)
    && (first < server.arrived ==> inbox.offset == Some(offset))
  }

  /** What the poller remembers is covered by the inbox; and a round that nothing disturbs
      stores all it was sent. */
  method Deliver(inbox: Inbox, server: Server, offset: int, round: Round, ghost n: nat)
    returns (ok: bool, offset': int, ghost n': nat)
    requires Durable(inbox, server, n) && offset <= Mark(server.log, n)
    modifies inbox, server
    ensures n <= n' && Durable(inbox, server, n') && offset' <= Mark(server.log, n')
    ensures round.statements > 100 ==> ok
    ensures ok ==> exists first: nat :: Caught(inbox, server, offset', first)
    ensures server.arrived == old(server.arrived)
    ensures server.forgotten == if offset > old(server.forgotten) then offset else old(server.forgotten)
  {
    ok, offset', n' := true, offset, n;
    var first, updates := server.GetUpdates(offset);
    FirstIsStored(server, first, n);
    var i := 0;
    while i < |updates|
      invariant i <= |updates|
      invariant n <= n' && first + i <= n' && Durable(inbox, server, n')
      invariant offset' <= Mark(server.log, n') && (i > 0 ==> offset' == updates[i - 1].id + 1)
      invariant server.arrived == old(server.arrived) && updates == server.log[first..first + |updates|]
      invariant server.forgotten == if offset > old(server.forgotten) then offset else old(server.forgotten)
    {
      if i == round.statements {
        ok := false;
        return;
      }
      n' := KeepUpdate(inbox, server, updates[i], round.now, first + i, n');
      offset' := updates[i].id + 1;
      i := i + 1;
    }
    if |updates| > 0 {
      if |updates| == round.statements {
        ok := false;
        return;
      }
      inbox.SaveOffset(offset');
    }
    forall j | first <= j < server.arrived && j < first + 100 ensures server.log[j].id in inbox.items && server.log[j].id < offset' {
      assert inbox.inserted[j] == server.log[j].id && updates[j - first] == server.log[j];
    }
    assert Caught(inbox, server, offset', first);
  }

  /** The answer came back and no statement failed. */
  predicate Undisturbed(round: Round) {
    round.answered && round.statements > 100
  }

  /** The first m updates are behind the poller: forgotten, or below what it asks for. */
  ghost predicate Behind(server: Server, offset: int, m: nat)
    reads server
    requires server.Valid()
  {
    forall i :: 0 <= i < server.arrived && i < m ==> server.log[i].id < server.forgotten || server.log[i].id < offset
  }

  lemma BehindIsStored(inbox: Inbox, server: Server, offset: int, n: nat, m: nat)
    requires Durable(inbox, server, n) && offset <= Mark(server.log, n) && Behind(server, offset, m)
    ensures forall i :: 0 <= i < server.arrived && i < m ==> server.log[i].id in inbox.items
  {
    assert forall i :: n <= i < |server.log| ==> Mark(server.log, n) <= server.log[i].id;
    forall i | 0 <= i < server.arrived && i < m ensures server.log[i].id in inbox.items {
      assert server.log[i].id < Mark(server.log, n);
      assert i < n;
      assert inbox.inserted[i] == server.log[i].id;
    }
  }

  /** More updates reach Telegram. */
  method Arrive(inbox: Inbox, server: Server, arrivals: nat, offset: int, ghost n: nat, ghost m: nat)
    requires Durable(inbox, server, n) && Behind(server, offset, m) && m <= server.arrived
    modifies server`arrived
    ensures Durable(inbox, server, n) && Behind(server, offset, m) && old(server.arrived) <= server.arrived
  {
    server.Receive(arrivals);
  }

  /** Telegram was asked, but its answer was lost. */
  method AskInVain(inbox: Inbox, server: Server, offset: int, ghost n: nat, ghost m: nat)
    requires Durable(inbox, server, n) && offset <= Mark(server.log, n) && Behind(server, offset, m)
    modifies server`forgotten
    ensures Durable(inbox, server, n) && Behind(server, offset, m)
  {
    var first, lost := server.GetUpdates(offset);
  }

  /** A round whose answer came back. */
  method Serve(inbox: Inbox, server: Server, offset: int, round: Round, ghost n: nat, ghost m: nat)
    returns (ok: bool, offset': int, ghost n': nat)
    requires Durable(inbox, server, n) && offset <= Mark(server.log, n) && Behind(server, offset, m)
    modifies inbox, server
    ensures n <= n' && Durable(inbox, server, n') && offset' <= Mark(server.log, n')
    ensures server.arrived == old(server.arrived)
    ensures round.statements > 100 ==> ok
    ensures ok ==> Behind(server, offset', m + 100)
  {
    ghost var forgotten := server.forgotten;
    ok, offset', n' := Deliver(inbox, server, offset, round, n);
    if ok {
      ghost var first: nat :| Caught(inbox, server, offset', first);
      if first < server.arrived && first < m {
        assert server.log[first].id < forgotten || server.log[first].id < offset;
      }
    }
  }

  /** Poll, from the start of the process to its end. Every precondition about the store
      is also a postcondition, so any number of restarts keeps it; and rounds that nothing
      disturbs store at least 100 of the updates that had arrived, each, or all of them. */
  method Poll(inbox: Inbox, server: Server, rounds: seq<Round>, ghost n: nat) returns (ghost n': nat)
    requires Durable(inbox, server, n)
    modifies inbox, server
    ensures n <= n' && Durable(inbox, server, n')
    ensures (forall j :: 0 <= j < |rounds| ==> Undisturbed(rounds[j])) ==>
      forall i :: 0 <= i < old(server.arrived) && i < 100 * |rounds| ==> server.log[i].id in inbox.items
  {
    n' := n;
    var offset := inbox.LoadOffset();
    var k := 0;
    ghost var m: nat := 0;
    while k < |rounds|
      invariant k <= |rounds| && old(server.arrived) <= server.arrived
      invariant n <= n' <= |server.log| && Durable(inbox, server, n') && offset <= Mark(server.log, n')
      invariant Behind(server, offset, m) && m <= old(server.arrived)
      invariant (forall j :: 0 <= j < k ==> Undisturbed(rounds[j])) ==> m == 100 * k || m == old(server.arrived)
    {
      Arrive(inbox, server, rounds[k].arrivals, offset, n', m);
      if rounds[k].reached && !rounds[k].answered {
        AskInVain(inbox, server, offset, n', m);
      } else if rounds[k].answered {
        var ok;
        ok, offset, n' := Serve(inbox, server, offset, rounds[k], n', m);
        if !ok {
          return;
        }
        m := if m + 100 <= old(server.arrived) then m + 100 else old(server.arrived);
      }
      k := k + 1;
    }
    BehindIsStored(inbox, server, offset, n', m);
  }
}
